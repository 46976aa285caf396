/** What the auth use cases are wired with: the lock, the clock, the renewer and the cookie store. */
module AuthPorts {
  import opened Wrappers
  import opened CookieJar
  import opened Jars
  import opened CookieFile

  datatype RenewFault = NoTokens | StillExpired(ttl: int) | Unchanged(ttl: int)

  datatype AuthError =
    | LockError
    | CookieFileError(message: string)
    | AuthExpiredError(ttl: Option<int>)
    | RenewFailedError(fault: RenewFault)
    | RenewNetworkError(timeout: bool)
    | SaveError
    | OtherError(message: string)

  /** What reading and decoding the cookie file comes to. */
  datatype Content =
    | Absent | Unreadable | Blank | BadJson | NoCookies | NotArray
    | BareArray(items: seq<BrowserCookie>)
    | Object(url: string, items: seq<BrowserCookie>)

  datatype Loaded = Loaded(jar: seq<Cookie>, url: string)

  function LoadFrom(url: string, items: seq<BrowserCookie>): Result<Loaded, AuthError> {
    if Import(items) == [] then Err(CookieFileError("cookies.json contains no valid cookies"))
    else Ok(Loaded(Import(items), url))
  }

  function LoadJar(content: Content): Result<Loaded, AuthError> {
    match content
    case Absent => Err(CookieFileError("cookie file not found"))
    case Unreadable => Err(CookieFileError("could not read cookie file"))
    case Blank => Err(CookieFileError("cookie file is empty"))
    case BadJson => Err(CookieFileError("invalid JSON in cookie file"))
    case NoCookies => Err(CookieFileError("cookie file has no \"cookies\" array"))
    case NotArray => Err(CookieFileError("\"cookies\" must be an array"))
    case BareArray(items) => LoadFrom(DEFAULT_URL, items)
    case Object(url, items) => LoadFrom(OrDefault(url, DEFAULT_URL), items)
  }

  /**
   A decoded file loads exactly when some item has a name; the jar is then the cookies of the named items
   that no later item overwrites, and the url is the file's own, or profi.ru when it has none.
   */
  lemma LoadOutcome(content: Content, items: seq<BrowserCookie>)
    requires content == BareArray(items) || (content.Object? && content.items == items)
    ensures LoadJar(content).Ok? <==> exists b :: b in items && b.name != ""
    ensures LoadJar(content).Err? ==>
              LoadJar(content).error == CookieFileError("cookies.json contains no valid cookies")
    ensures LoadJar(content).Ok? ==>
              var loaded := LoadJar(content).value;
              && loaded.url == (if content.Object? && content.url != "" then content.url else "https://profi.ru")
              && loaded.jar != [] && Distinct(loaded.jar)
              && forall d :: d in loaded.jar <==> exists i: nat :: Gives(items, i, d)
  {
    hide Import, Gives, Distinct;
    LoadedIsLegal(items);
    forall d ensures d in Import(items) <==> exists i: nat :: Gives(items, i, d) { ImportIsLast(items, d); }
  }

  /** The file after a successful save of the jar. */
  ghost predicate Holds(content: Content, jar: seq<Cookie>, url: string) {
    content.Object? && content.url == url && IsExport(content.items, jar)
  }

  datatype Event =
    | LockRefused | Locked | Released
    | Read
    | Clock(now: int)
    | Renewed
    | Saved(jar: seq<Cookie>, url: string, ok: bool)

  /** How the outside behaves: any clock, any jar writes by the renewer and then any result of it. */
  datatype Script = Script(
    lockFree: bool, clock: nat -> int, sets: seq<Cookie>, renewal: Option<AuthError>, writable: bool)

  class Ports {
    const script: Script
    var ticks: nat
    var content: Content
    var events: seq<Event>

    constructor (script: Script, content: Content)
      ensures this.script == script && ticks == 0 && this.content == content && events == []
    {
      this.script, this.content := script, content;
      ticks, events := 0, [];
    }

    method Acquire() returns (held: bool)
      modifies `events
      ensures held == script.lockFree && events == old(events) + [if held then Locked else LockRefused]
    {
      held := script.lockFree;
      events := events + [if held then Locked else LockRefused];
    }

    method Release()
      modifies `events
      ensures events == old(events) + [Released]
    {
      events := events + [Released];
    }

    method Now() returns (now: int)
      modifies `events, `ticks
      ensures now == script.clock(old(ticks)) && ticks == old(ticks) + 1
      ensures events == old(events) + [Clock(now)]
    {
      now := script.clock(ticks);
      ticks, events := ticks + 1, events + [Clock(now)];
    }

    method Renew(jar: Jar) returns (error: Option<AuthError>)
      modifies `events, jar
      ensures jar.cookies == PutAll(old(jar.cookies), script.sets)
      ensures error == script.renewal && events == old(events) + [Renewed]
    {
      for i := 0 to |script.sets|
        invariant jar.cookies == PutAll(old(jar.cookies), script.sets[..i])
        invariant events == old(events)
      {
        assert script.sets[..i + 1][..i] == script.sets[..i];
        jar.Set(script.sets[i]);
      }
      assert script.sets[..|script.sets|] == script.sets;
      error := script.renewal;
      events := events + [Renewed];
    }

    method Load() returns (error: Option<AuthError>, jar: Jar, url: string)
      modifies `events
      ensures events == old(events) + [Read] && fresh(jar)
      ensures match LoadJar(content)
              case Err(e) => error == Some(e)
              case Ok(loaded) => error == None && jar.cookies == loaded.jar && url == loaded.url
      ensures content == Absent ==> error == Some(CookieFileError("cookie file not found"))
      ensures content == Unreadable ==> error == Some(CookieFileError("could not read cookie file"))
      ensures content == Blank ==> error == Some(CookieFileError("cookie file is empty"))
      ensures content == BadJson ==> error == Some(CookieFileError("invalid JSON in cookie file"))
      ensures content == NoCookies ==> error == Some(CookieFileError("cookie file has no \"cookies\" array"))
      ensures content == NotArray ==> error == Some(CookieFileError("\"cookies\" must be an array"))
    {
      events := events + [Read];
      jar := new Jar([]);
      url := "";
      match content
      case BareArray(items) => error, jar, url := FromItems(DEFAULT_URL, items);
      case Object(u, items) => error, jar, url := FromItems(OrDefault(u, DEFAULT_URL), items);
      case Absent => error := Some(CookieFileError("cookie file not found"));
      case Unreadable => error := Some(CookieFileError("could not read cookie file"));
      case Blank => error := Some(CookieFileError("cookie file is empty"));
      case BadJson => error := Some(CookieFileError("invalid JSON in cookie file"));
      case NoCookies => error := Some(CookieFileError("cookie file has no \"cookies\" array"));
      case NotArray => error := Some(CookieFileError("\"cookies\" must be an array"));
    }

    static method FromItems(source: string, items: seq<BrowserCookie>)
      returns (error: Option<AuthError>, jar: Jar, url: string)
      ensures fresh(jar)
      ensures match LoadFrom(source, items)
              case Err(e) => error == Some(e)
              case Ok(loaded) => error == None && jar.cookies == loaded.jar && url == loaded.url
    {
      jar := JarFromExport(items);
      url := source;
      error := if |jar.cookies| == 0 then Some(CookieFileError("cookies.json contains no valid cookies")) else None;
    }

    method Save(jar: Jar, url: string) returns (ok: bool)
      modifies `events, `content
      ensures ok == script.writable
      ensures events == old(events) + [Saved(jar.cookies, url, ok)]
      ensures if ok then Holds(content, jar.cookies, url) else content == old(content)
      ensures ok ==> content.Object? && content.url == url
    {
      var items := ExportFrom(jar);
      ok := script.writable;
      events := events + [Saved(jar.cookies, url, ok)];
      if ok {
        content := Object(url, items);
      }
    }
  }
}
