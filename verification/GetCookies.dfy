/** The reader of what the refresh cycle saved, and what it sees after a refresh. */
module GetCookies {
  import opened Wrappers
  import opened CookieJar
  import opened Jars
  import opened CookieFile
  import opened HttpRenew
  import opened AuthPorts
  import opened RefreshAuth

  datatype Status = StatusOk | StatusRequiresLogin

  datatype Snapshot = Snapshot(cookies: seq<Cookie>, header: string, status: Status, ttl: int, hasToken: bool)

  function SnapshotStatus(ttl: Option<int>): Status {
    if ttl.Some? && ttl.value > 0 then StatusOk else StatusRequiresLogin
  }

  /** Every cookie of the jar in its order, unlike the renewer's header. */
  function AllPairs(cs: seq<Cookie>): seq<string> {
    seq(|cs|, i requires 0 <= i < |cs| => cs[i].name + "=" + cs[i].value)
  }

  ghost function SnapshotOf(r: Reader, jar: seq<Cookie>, now: int): Snapshot {
    var ttl := TTL(r, jar, now);
    Snapshot(jar, Joined(AllPairs(jar)), SnapshotStatus(ttl), if ttl.Some? then ttl.value else 0, ttl.Some?)
  }

  /** One read of the cookies at clock reading `k`: it holds the lock while it loads, and never saves. */
  ghost predicate View(r: Reader, s: Script, k: nat, content: Content, events: seq<Event>,
                       result: Result<Snapshot, AuthError>) {
    if !s.lockFree then events == [LockRefused] && result == Err(LockError)
    else
      match LoadJar(content)
      case Err(e) => events == [Locked, Read, Released] && result == Err(e)
      case Ok(loaded) =>
        && events == [Locked, Read, Clock(s.clock(k)), Released]
        && result == Ok(SnapshotOf(r, loaded.jar, s.clock(k)))
  }

  lemma AllPairsReadBack(cs: seq<Cookie>)
    requires cs != [] && forall c | c in cs :: Plain(c)
    ensures var read := CutPairs(Joined(AllPairs(cs)));
            |read| == |cs| && forall i | 0 <= i < |cs| :: ReadPair(read[i]) == (cs[i].name, cs[i].value)
  {
    forall i | 0 <= i < |cs|
      ensures ';' !in AllPairs(cs)[i] && ReadPair(AllPairs(cs)[i]) == (cs[i].name, cs[i].value)
    {
      assert cs[i] in cs;
      PairReadsBack(cs[i].name, cs[i].value);
    }
    JoinedReadsBack(AllPairs(cs));
  }

  /**
   What a reader of the cookies gets: the loaded jar as it is, with each of its cookies in the header;
   status ok exactly while some token in it is alive; and its lifetime, which is 0 without a token.
   */
  lemma ViewReads(r: Reader, s: Script, k: nat, content: Content, events: seq<Event>,
                  result: Result<Snapshot, AuthError>)
    requires View(r, s, k, content, events, result)
    ensures !s.lockFree ==> result == Err(LockError)
    ensures s.lockFree && LoadJar(content).Err? ==> result == Err(LoadJar(content).error)
    ensures result.Ok? <==> s.lockFree && LoadJar(content).Ok?
    ensures Locked in events <==> s.lockFree
    ensures s.lockFree ==> |events| >= 3 && events[..2] == [Locked, Read] && events[|events| - 1] == Released
    ensures result.Ok? ==>
              var jar, now, seen := LoadJar(content).value.jar, s.clock(k), result.value;
              && seen.cookies == jar
              && (seen.status == StatusOk <==> Alive(r, jar, now))
              && (seen.hasToken <==> exists c :: c in jar && c.name == "prfr_bo_tkn" && r.exp(c.value).Some?)
              && (if seen.hasToken then TTL(r, jar, now) == Some(seen.ttl) else seen.ttl == 0)
              && ((forall c | c in jar :: Plain(c)) ==>
                    && |CutPairs(seen.header)| == |jar|
                    && forall i | 0 <= i < |jar| ::
                         ReadPair(CutPairs(seen.header)[i]) == (jar[i].name, jar[i].value))
  {
    hide LoadJar, TTL, Alive, AllPairs, Joined, Plain;
    if result.Ok? {
      var jar, now := LoadJar(content).value.jar, s.clock(k);
      AliveIff(r, jar, now);
      TTLReads(r, jar, now);
      LoadedIsNotEmpty(content);
      if forall c | c in jar :: Plain(c) { AllPairsReadBack(jar); }
    }
  }

  lemma LoadedIsNotEmpty(content: Content)
    requires LoadJar(content).Ok?
    ensures LoadJar(content).value.jar != []
  {
    hide Import;
  }

  class GetCookies {
    const reader: Reader
    const ports: Ports

    constructor (reader: Reader, ports: Ports)
      ensures this.reader == reader && this.ports == ports
    {
      this.reader, this.ports := reader, ports;
    }

    method Execute() returns (result: Result<Snapshot, AuthError>)
      modifies ports
      ensures |old(ports.events)| <= |ports.events| && ports.events[..|old(ports.events)|] == old(ports.events)
      ensures View(reader, ports.script, old(ports.ticks), old(ports.content),
                   ports.events[|old(ports.events)|..], result)
      ensures ports.content == old(ports.content)
      ensures ports.ticks == old(ports.ticks)
              + if ports.script.lockFree && LoadJar(old(ports.content)).Ok? then 1 else 0
    {
      hide TTL, LoadJar;
      var held := ports.Acquire();
      if !held { return Err(LockError); }
      var error, jar, _ := ports.Load();
      if error.Some? {
        result := Err(error.value);
      } else {
        var now := ports.Now();
        var ttl := jar.TokenTTL(reader, now);
        var header := Header(jar.cookies);
        result := Ok(Snapshot(jar.cookies, header, SnapshotStatus(ttl),
                              if ttl.Some? then ttl.value else 0, ttl.Some?));
      }
      ports.Release();
    }

    static method Header(cs: seq<Cookie>) returns (header: string)
      ensures header == Joined(AllPairs(cs))
    {
      var pairs := [];
      for i := 0 to |cs|
        invariant pairs == AllPairs(cs)[..i]
      {
        pairs := pairs + [cs[i].name + "=" + cs[i].value];
      }
      assert AllPairs(cs)[..|cs|] == AllPairs(cs);
      header := Joined(pairs);
    }
  }

  // ----- Across use cases -----

  /** The last reading of the clock in a successful cycle, right before its save. */
  function LastReading(events: seq<Event>): int
    requires |events| >= 3 && events[|events| - 3].Clock?
  {
    events[|events| - 3].now
  }

  /** No two cookies of a readable token fall together in the jar that is saved. */
  lemma SavedTokensApart(r: Reader, threshold: int, s: Script, k: nat, before: Content,
                         after: Content, events: seq<Event>, result: Result<RefreshResult, AuthError>)
    requires Cycle(r, threshold, s, k, before, after, events, result) && result.Ok?
    ensures |events| >= 2 && events[|events| - 2].Saved? && TokensApart(r, SavedJar(events))
  {
    hide TTL, LoadJar, PutAll, Cycle, Pruned, FaultOf, TokensApart;
    SuccessfulCycle(r, threshold, s, k, before, after, events, result);
    LoadedIsDistinct(before);
    var loaded := LoadJar(before).value;
    if result.value.refreshed {
      PutAllDistinct(loaded.jar, s.sets);
      PrunedTokensApart(r, PutAll(loaded.jar, s.sets));
    } else {
      LegalTokensApart(r, loaded.jar);
    }
  }

  /** What a successful cycle leaves in the file loads again, with the reported lifetime running down. */
  lemma StoredLifetime(r: Reader, threshold: int, s: Script, k: nat, before: Content,
                       after: Content, events: seq<Event>, result: Result<RefreshResult, AuthError>, now: int)
    requires Cycle(r, threshold, s, k, before, after, events, result) && result.Ok?
    ensures |events| >= 3 && events[|events| - 3].Clock? && result.value.ttlAfter > 0
    ensures LoadJar(after).Ok?
    ensures TTL(r, LoadJar(after).value.jar, now) == Some(result.value.ttlAfter - (now - LastReading(events)))
  {
    hide Import, Cycle, TokensApart, Freshest, LatestExp;
    SavedTokensApart(r, threshold, s, k, before, after, events, result);
    SavesOnlyLiveTokens(r, threshold, s, k, before, after, events, result, |events| - 2);
    ExpiriesSurvive(r, after.items, SavedJar(events));
    EmptyHasNoToken(r);
  }

  /** The url of the file survives every successful cycle. */
  lemma UrlSurvives(r: Reader, threshold: int, s: Script, k: nat, before: Content,
                    after: Content, events: seq<Event>, result: Result<RefreshResult, AuthError>)
    requires Cycle(r, threshold, s, k, before, after, events, result) && result.Ok?
    ensures LoadJar(before).Ok? && LoadJar(after).Ok? && LoadJar(after).value.url == LoadJar(before).value.url
  {
    hide Cycle, LoadJar, TTL, PutAll, Pruned, FaultOf;
    SuccessfulCycle(r, threshold, s, k, before, after, events, result);
    StoredLifetime(r, threshold, s, k, before, after, events, result, 0);
    SavesOnlyLiveTokens(r, threshold, s, k, before, after, events, result, |events| - 2);
    UrlIsKept(before, after);
  }

  lemma UrlIsKept(before: Content, after: Content)
    requires LoadJar(before).Ok? && LoadJar(after).Ok?
    requires after.Object? && after.url == LoadJar(before).value.url
    ensures LoadJar(after).value.url == LoadJar(before).value.url
  {
    hide Import;
    assert DEFAULT_URL != "";
  }

  lemma EmptyHasNoToken(r: Reader)
    ensures LatestExp(r, []) == map[]
  {
  }

  /**
   Refresh, then read: after a successful cycle that reported v at its last reading t, and no later
   write, a read at t' reports v - (t' - t), and status ok exactly while t' < t + v; through sorting,
   normalising, saving and loading, whatever the renewer wrote.
   */
  lemma ReadAfterRefresh(r: Reader, threshold: int, s: Script, k: nat, before: Content,
                         after: Content, events: seq<Event>, result: Result<RefreshResult, AuthError>,
                         s': Script, k': nat, events': seq<Event>, seen: Result<Snapshot, AuthError>)
    requires Cycle(r, threshold, s, k, before, after, events, result) && result.Ok?
    requires View(r, s', k', after, events', seen)
    ensures |events| >= 3 && events[|events| - 3].Clock?
    ensures seen.Ok? <==> s'.lockFree
    ensures seen.Ok? ==>
              var v, t, t' := result.value.ttlAfter, LastReading(events), s'.clock(k');
              && seen.value.hasToken && seen.value.ttl == v - (t' - t)
              && (seen.value.status == StatusOk <==> t' < t + v)
  {
    hide Cycle, TTL, LoadJar;
    StoredLifetime(r, threshold, s, k, before, after, events, result, s'.clock(k'));
  }

  /** Refresh, then refresh: the next successful cycle renews exactly once the lifetime is down to its threshold. */
  lemma NextCycleRenewsIff(r: Reader, threshold: int, s: Script, k: nat, before: Content,
                           after: Content, events: seq<Event>, result: Result<RefreshResult, AuthError>,
                           threshold': int, s': Script, k': nat, after': Content, events': seq<Event>,
                           result': Result<RefreshResult, AuthError>)
    requires Cycle(r, threshold, s, k, before, after, events, result) && result.Ok?
    requires Cycle(r, threshold', s', k', after, after', events', result') && result'.Ok?
    ensures |events| >= 3 && events[|events| - 3].Clock?
    ensures result'.value.refreshed
            <==> result.value.ttlAfter - (s'.clock(k') - LastReading(events)) <= threshold'
  {
    hide Cycle, TTL, LoadJar;
    StoredLifetime(r, threshold, s, k, before, after, events, result, s'.clock(k'));
    SuccessfulCycle(r, threshold', s', k', after, after', events', result');
  }
}
