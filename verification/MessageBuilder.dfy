/** llm's Telegram message: two nested truncations that must pass the notifications service. */
module MessageBuilder {
  import opened Wrappers
  import opened Wire
  import opened Text
  import opened Assessing
  import opened CreateNotification

  const ELLIPSIS := "\U{2026}"
  const SEPARATOR := "\n\n"

  // ----- Truncation -----

  /** The length of the longest prefix that fits the budget, found by dropping from the end. */
  function Fit(text: string, budget: nat): (n: nat)
    ensures n <= |text|
  {
    if Utf16Length(text) <= budget then |text| else Fit(text[..|text| - 1], budget)
  }

  lemma {:induction false} FitIsLongest(text: string, budget: nat, n: nat)
    requires n <= |text|
    ensures Utf16Length(text[..n]) <= budget <==> n <= Fit(text, budget)
  {
    assert text[..|text|] == text;
    if Utf16Length(text) <= budget {
      LengthOfPrefix(text, n);
    } else if n < |text| {
      assert text[..|text| - 1][..n] == text[..n];
      FitIsLongest(text[..|text| - 1], budget, n);
    }
  }

  function Truncated(text: string, limit: int): string {
    if limit <= 0 then ""
    else if Utf16Length(text) <= limit then text
    else RStrip(text[..Fit(text, limit - 1)]) + ELLIPSIS
  }

  lemma ShortWidths()
    ensures Utf16Length(ELLIPSIS) == 1 && Utf16Length(SEPARATOR) == 2
  {
    assert ELLIPSIS[..0] == "" && SEPARATOR[..1] == "\n" && "\n"[..0] == "";
  }

  lemma FirstThatDoesNotFit(text: string, budget: nat, i: nat)
    requires i <= |text| && Utf16Length(text[..i]) <= budget < Utf16Length(text)
    requires i < |text| ==> Utf16Length(text[..i]) + Width(text[i]) > budget
    ensures Fit(text, budget) == i
  {
    assert text[..|text|] == text;
    LengthOfPrefix(text, i);
    FitIsLongest(text, budget, i);
    FitIsLongest(text, budget, i + 1);
  }

  /** _truncate keeps characters while they fit and stops at the first that does not. */
  method Truncate(text: string, limit: int) returns (r: string)
    ensures r == Truncated(text, limit)
  {
    hide RStrip, Fit;
    ShortWidths();
    if limit <= 0 { return ""; }
    if Utf16Length(text) <= limit { return text; }
    var budget := limit - Utf16Length(ELLIPSIS);
    var kept, used := "", 0;
    var i := 0;
    while i < |text|
      invariant 0 <= i <= |text| && kept == text[..i] && used == Utf16Length(kept) <= budget
    {
      var width := Width(text[i]);
      LengthOfPrefix(text, i);
      if used + width > budget { break; }
      kept := kept + [text[i]];
      used := used + width;
      i := i + 1;
    }
    FirstThatDoesNotFit(text, budget, i);
    r := RStrip(kept) + ELLIPSIS;
  }

  /** A truncated text fits, and is the text itself exactly when that fits. */
  lemma TruncatedFits(text: string, limit: int)
    ensures Utf16Length(Truncated(text, limit)) <= (if limit <= 0 then 0 else limit)
    ensures limit > 0 ==> (Truncated(text, limit) == text <==> Utf16Length(text) <= limit)
  {
    if limit > 0 && Utf16Length(text) > limit {
      var n := Fit(text, limit - 1);
      var kept := text[..n];
      FitIsLongest(text, limit - 1, n);
      var r := RStrip(kept);
      LengthOfPrefix(kept, |r|);
      LengthOfConcat(r, ELLIPSIS);
      ShortWidths();
    }
  }

  /**
   A truncated text, spelled out: nothing, the text itself, or its longest prefix that leaves room for
   the ellipsis, without white space at its end, and the ellipsis.
   */
  lemma TruncatedReads(text: string, limit: int) returns (n: nat)
    ensures limit <= 0 ==> Truncated(text, limit) == ""
    ensures limit > 0 && Utf16Length(text) <= limit ==> Truncated(text, limit) == text
    ensures n <= |text|
    ensures limit > 0 && Utf16Length(text) > limit ==>
              && (forall m | 0 <= m <= |text| :: Utf16Length(text[..m]) <= limit - 1 <==> m <= n)
              && Truncated(text, limit) == RStrip(text[..n]) + "\U{2026}"
  {
    n := |text|;
    if limit > 0 && Utf16Length(text) > limit {
      n := Fit(text, limit - 1);
      forall m | 0 <= m <= |text| ensures Utf16Length(text[..m]) <= limit - 1 <==> m <= n {
        FitIsLongest(text, limit - 1, m);
      }
    }
  }

  // ----- Escaping -----

  function Replace(s: string, c: char, entity: string): string {
    if s == "" then "" else (if s[0] == c then entity else [s[0]]) + Replace(s[1..], c, entity)
  }

  /** html.escape(text, quote=False): three passes over the text. */
  function Escape(s: string): string {
    Replace(Replace(Replace(s, '&', "&amp;"), '<', "&lt;"), '>', "&gt;")
  }

  function EscapeChar(c: char): string {
    if c == '&' then "&amp;" else if c == '<' then "&lt;" else if c == '>' then "&gt;" else [c]
  }

  function EscapeOnce(s: string): string {
    if s == "" then "" else EscapeChar(s[0]) + EscapeOnce(s[1..])
  }

  lemma {:induction false} ReplaceConcat(a: string, b: string, c: char, entity: string)
    ensures Replace(a + b, c, entity) == Replace(a, c, entity) + Replace(b, c, entity)
  {
    if a == "" {
      assert a + b == b;
    } else {
      assert (a + b)[1..] == a[1..] + b;
      ReplaceConcat(a[1..], b, c, entity);
    }
  }

  lemma {:induction false} ReplaceAbsent(s: string, c: char, entity: string)
    requires c !in s
    ensures Replace(s, c, entity) == s
  {
    if s != "" {
      ReplaceAbsent(s[1..], c, entity);
    }
  }

  /** The three passes do not see each other's output: they are one pass over the characters. */
  lemma {:induction false} EscapeIsOnePass(s: string)
    ensures Escape(s) == EscapeOnce(s)
  {
    if s != "" {
      var head := if s[0] == '&' then "&amp;" else [s[0]];
      var tail := Replace(s[1..], '&', "&amp;");
      ReplaceConcat(head, tail, '<', "&lt;");
      var head2 := Replace(head, '<', "&lt;");
      ReplaceConcat(head2, Replace(tail, '<', "&lt;"), '>', "&gt;");
      if s[0] == '<' {
        assert head[1..] == "" && head2 == "&lt;";
        ReplaceAbsent(head2, '>', "&gt;");
      } else if s[0] == '>' {
        assert head[1..] == "";
      } else {
        ReplaceAbsent(head, '<', "&lt;");
        ReplaceAbsent(head, '>', "&gt;");
      }
      EscapeIsOnePass(s[1..]);
    }
  }

  /** What a reader of the message sees: the three entities stand for their characters. */
  function Shown(s: string): string {
    if s == "" then ""
    else if "&amp;" <= s then "&" + Shown(s[5..])
    else if "&lt;" <= s then "<" + Shown(s[4..])
    else if "&gt;" <= s then ">" + Shown(s[4..])
    else [s[0]] + Shown(s[1..])
  }

  lemma {:induction false} ShownOnce(s: string)
    ensures Shown(EscapeOnce(s)) == s
  {
    if s != "" {
      var rest := EscapeOnce(s[1..]);
      ShownOnce(s[1..]);
      assert EscapeOnce(s) == EscapeChar(s[0]) + rest;
      assert (EscapeChar(s[0]) + rest)[|EscapeChar(s[0])|..] == rest;
      ShownHead(s[0], rest);
    }
  }

  lemma ShownHead(c: char, rest: string)
    ensures Shown(EscapeChar(c) + rest) == [c] + Shown(rest)
  {
    var s := EscapeChar(c) + rest;
    if c == '&' {
      assert s[..5] == "&amp;" && s[5..] == rest;
    } else if c == '<' {
      assert s[..4] == "&lt;" && s[4..] == rest && s[1] == 'l';
    } else if c == '>' {
      assert s[..4] == "&gt;" && s[4..] == rest && s[1] == 'g';
    } else {
      assert s[0] == c && s[1..] == rest;
    }
  }

  /** Escaping loses nothing: the reader sees the text as it was. */
  lemma EscapeReadsBack(s: string)
    ensures Shown(Escape(s)) == s
  {
    EscapeIsOnePass(s);
    ShownOnce(s);
  }

  /** An escaped text opens and closes no tag. */
  lemma {:induction false} EscapedHasNoTags(s: string)
    ensures '<' !in Escape(s) && '>' !in Escape(s)
  {
    EscapeIsOnePass(s);
    if s != "" {
      EscapeIsOnePass(s[1..]);
      EscapedHasNoTags(s[1..]);
    }
  }

  // ----- The message -----

  datatype Listing = Listing(id: OrderId, title: string, budget: Option<string>)

  function Url(l: Listing): string {
    "https://profi.ru/backoffice/n.php?o=" + l.id
  }

  function Decimal(n: nat): string {
    var digit := ['0', '1', '2', '3', '4', '5', '6', '7', '8', '9'][n % 10];
    if n < 10 then [digit] else Decimal(n / 10) + [digit]
  }

  predicate Digits(s: string) {
    s != "" && forall i | 0 <= i < |s| :: '0' <= s[i] <= '9'
  }

  /** The number that a text of decimal digits stands for. */
  function ValueOf(s: string): nat
    requires forall i | 0 <= i < |s| :: '0' <= s[i] <= '9'
  {
    if s == "" then 0 else 10 * ValueOf(s[..|s| - 1]) + (s[|s| - 1] as int - '0' as int)
  }

  lemma {:induction false} DecimalReads(n: nat)
    ensures Digits(Decimal(n)) && ValueOf(Decimal(n)) == n
    ensures n > 0 ==> Decimal(n)[0] != '0'
    ensures n == 0 ==> Decimal(n) == "0"
  {
    var digit := ['0', '1', '2', '3', '4', '5', '6', '7', '8', '9'][n % 10];
    assert digit as int - '0' as int == n % 10;
    if n < 10 {
      assert Decimal(n) == [digit] && Decimal(n)[..0] == "";
    } else {
      DecimalReads(n / 10);
      assert Decimal(n)[..|Decimal(n)| - 1] == Decimal(n / 10);
    }
  }

  function Header(l: Listing): string {
    var title := Escape(if Strip(l.title) != "" then Strip(l.title) else "Без названия");
    "\U{1F9E9} <b>" + "<a href=\"" + Url(l) + "\">" + title + "</a></b>"
  }

  function Meta(l: Listing, score: nat): string {
    var line := "\U{1F3AF} Соответствие: " + Decimal(score) + "/100";
    if l.budget.Some? then "\U{1F4B0} " + Escape(l.budget.value) + "\n" + line else line
  }

  function Overhead(header: string, meta: string): nat {
    Utf16Length(header) + Utf16Length(meta) + 2 * Utf16Length(SEPARATOR)
  }

  /** The parts joined, before the outer truncation. */
  function Joined(header: string, summary: string, meta: string): string {
    var s := Truncated(summary, MAX_TEXT_LENGTH - Overhead(header, meta));
    if s == "" then header + SEPARATOR + meta
    else header + SEPARATOR + s + SEPARATOR + meta
  }

  function Built(header: string, summary: string, meta: string): string {
    Truncated(Joined(header, summary, meta), MAX_TEXT_LENGTH)
  }

  function CommandFor(text: string): NotificationCommand {
    NotificationCommand(text, Some(Html), None, Some(true), None)
  }

  /** The first half of build_notification: the two parts that are never cut by the inner truncation. */
  method BuildFrame(l: Listing, score: nat) returns (header: string, meta: string)
    ensures header == Header(l) && meta == Meta(l, score)
  {
    hide Escape, Strip, Decimal, Url;
    var stripped := Strip(l.title);
    var title := Escape(if stripped != "" then stripped else "Без названия");
    header := "\U{1F9E9} <b>" + "<a href=\"" + Url(l) + "\">" + title + "</a></b>";
    var metaLines := [];
    if l.budget.Some? {
      metaLines := metaLines + ["\U{1F4B0} " + Escape(l.budget.value)];
    }
    metaLines := metaLines + ["\U{1F3AF} Соответствие: " + Decimal(score) + "/100"];
    meta := if |metaLines| == 2 then metaLines[0] + "\n" + metaLines[1] else metaLines[0];
  }

  method BuildNotification(l: Listing, a: Assessment) returns (command: NotificationCommand)
    requires 0 <= a.score <= 100
    ensures command == CommandFor(Built(Header(l), Escape(Strip(a.summary)), Meta(l, a.score)))
    ensures Utf16Length(command.text) <= MAX_TEXT_LENGTH && Create(command) == Ok(command)
    ensures command == NotificationCommand(command.text, Some(Html), None, Some(true), None)
    ensures FrameFits(l, a.score) ==> SaysAll(command.text, l, a.summary, a.score)
  {
    hide Truncated, Escape, Strip, Header, Meta, Utf16Length, Create, FrameFits, SaysAll;
    ShortWidths();
    var header, meta := BuildFrame(l, a.score);
    var overhead := Utf16Length(header) + Utf16Length(meta) + Utf16Length(SEPARATOR) * 2;
    var summary := Truncate(Escape(Strip(a.summary)), MAX_TEXT_LENGTH - overhead);
    var text := if summary != "" then header + SEPARATOR + summary + SEPARATOR + meta
                else header + SEPARATOR + meta;
    text := Truncate(text, MAX_TEXT_LENGTH);
    command := CommandFor(text);
    BuiltIsAccepted(l, Escape(Strip(a.summary)), meta);
    if FrameFits(l, a.score) {
      BuiltSaysAll(l, a.summary, a.score);
    }
  }

  lemma JoinedLength(header: string, summary: string, meta: string)
    ensures var s := Truncated(summary, MAX_TEXT_LENGTH - Overhead(header, meta));
            Utf16Length(Joined(header, summary, meta))
            == Utf16Length(header) + 2 + Utf16Length(meta) + (if s == "" then 0 else Utf16Length(s) + 2)
  {
    ShortWidths();
    var s := Truncated(summary, MAX_TEXT_LENGTH - Overhead(header, meta));
    LengthOfConcat(header, SEPARATOR);
    LengthOfConcat(header + SEPARATOR, meta);
    LengthOfConcat(header + SEPARATOR, s);
    LengthOfConcat(header + SEPARATOR + s, SEPARATOR);
    LengthOfConcat(header + SEPARATOR + s + SEPARATOR, meta);
  }

  predicate EndsWith(s: string, suffix: string) {
    |suffix| <= |s| && s[|s| - |suffix|..] == suffix
  }

  /**
   The outer truncation is the identity exactly when header, separator and meta fit; the
   message then starts with the whole header and ends with the whole meta.
   */
  lemma OuterTruncationIff(header: string, summary: string, meta: string)
    ensures Built(header, summary, meta) == Joined(header, summary, meta)
            <==> Utf16Length(header) + 2 + Utf16Length(meta) <= MAX_TEXT_LENGTH
    ensures Utf16Length(header) + 2 + Utf16Length(meta) <= MAX_TEXT_LENGTH ==>
              header <= Built(header, summary, meta) && EndsWith(Built(header, summary, meta), meta)
  {
    ShortWidths();
    JoinedLength(header, summary, meta);
    TruncatedFits(summary, MAX_TEXT_LENGTH - Overhead(header, meta));
    TruncatedFits(Joined(header, summary, meta), MAX_TEXT_LENGTH);
  }

  /** Whatever the listing and the assessment, the notifications service accepts the message. */
  lemma BuiltIsAccepted(l: Listing, summary: string, meta: string)
    ensures var text := Built(Header(l), summary, meta);
            Utf16Length(text) <= MAX_TEXT_LENGTH && Create(CommandFor(text)) == Ok(CommandFor(text))
  {
    hide Joined, Header, Truncated, Utf16Length;
    BuiltStart(l, summary, meta);
    TruncatedFits(Joined(Header(l), summary, meta), MAX_TEXT_LENGTH);
  }

  /** The message starts with a visible character, whatever is truncated. */
  lemma BuiltStart(l: Listing, summary: string, meta: string)
    ensures var text := Built(Header(l), summary, meta);
            text != "" && text[0] == '\U{1F9E9}' && !JsSpace(text[0])
  {
    hide Truncated, Escape, Strip, Url;
    var joined := Joined(Header(l), summary, meta);
    assert joined[0] == '\U{1F9E9}';
    TruncatedStart(joined);
  }

  lemma TruncatedStart(joined: string)
    requires joined != "" && joined[0] == '\U{1F9E9}'
    ensures var text := Truncated(joined, MAX_TEXT_LENGTH); text != "" && text[0] == joined[0]
  {
    assert joined[..1][..0] == "" && Utf16Length(joined[..1]) <= 2;
    FitIsLongest(joined, MAX_TEXT_LENGTH - 1, 1);
    var kept := joined[..Fit(joined, MAX_TEXT_LENGTH - 1)];
    assert kept[0] == '\U{1F9E9}' && !PythonSpace(kept[0]);
    assert RStrip(kept) != "";
  }

  // ----- What the message says -----

  predicate FrameFits(l: Listing, score: nat) {
    Utf16Length(Header(l)) + 2 + Utf16Length(Meta(l, score)) <= MAX_TEXT_LENGTH
  }

  /** The parts of a message: link, escaped title, what is left of the summary, escaped budget, and score. */
  predicate Reads(text: string, link: string, title: string, summary: string, budget: Option<string>, digits: string) {
    text == "\U{1F9E9} <b>" + "<a href=\"" + link + "\">" + title + "</a></b>" + "\n\n"
            + (if summary == "" then "" else summary + "\n\n")
            + ((match budget { case None => "" case Some(b) => "\U{1F4B0} " + b + "\n" })
               + ("\U{1F3AF} Соответствие: " + digits + "/100"))
  }

  /**
   The message links to the order, shows its stripped title or the fallback, shows its budget if it has
   one, and ends with the match line, whose digits read back as the score without a leading zero; the
   stripped summary is there as a whole when all of it fits, and else truncated to what is left.
   */
  ghost predicate SaysAll(text: string, l: Listing, summary: string, score: nat) {
    exists title, cut, budget, digits ::
      && Reads(text, "https://profi.ru/backoffice/n.php?o=" + l.id, title, cut, budget, digits)
      && Shown(title) == (if Strip(l.title) != "" then Strip(l.title) else "Без названия")
      && (l.budget == None <==> budget == None)
      && (l.budget.Some? && budget.Some? ==> Shown(budget.value) == l.budget.value)
      && Digits(digits) && ValueOf(digits) == score && (score > 0 ==> digits[0] != '0')
      && cut == Truncated(Escape(Strip(summary)), 4096 - Overhead(Header(l), Meta(l, score)))
      && (Overhead(Header(l), Meta(l, score)) + Utf16Length(Escape(Strip(summary))) <= 4096 ==>
            Shown(cut) == Strip(summary))
  }

  lemma HeaderReads(l: Listing)
    ensures var title := Escape(if Strip(l.title) != "" then Strip(l.title) else "Без названия");
            Header(l) == "\U{1F9E9} <b>" + "<a href=\"" + ("https://profi.ru/backoffice/n.php?o=" + l.id)
                         + "\">" + title + "</a></b>"
  {
  }

  lemma MetaReads(l: Listing, score: nat)
    ensures var budget := match l.budget { case None => None case Some(b) => Some(Escape(b)) };
            Meta(l, score)
            == (match budget { case None => "" case Some(b) => "\U{1F4B0} " + b + "\n" })
               + ("\U{1F3AF} Соответствие: " + Decimal(score) + "/100")
  {
    hide Escape, Decimal;
    var line := "\U{1F3AF} Соответствие: " + Decimal(score) + "/100";
    assert "" + line == line;
  }

  lemma JoinedReads(header: string, cut: string, meta: string)
    ensures header + SEPARATOR + (if cut == "" then "" else cut + SEPARATOR) + meta
            == if cut == "" then header + SEPARATOR + meta else header + SEPARATOR + cut + SEPARATOR + meta
  {
    if cut == "" {
      assert header + SEPARATOR + "" == header + SEPARATOR;
    }
  }

  lemma BuiltSaysAll(l: Listing, summary: string, score: nat)
    requires FrameFits(l, score)
    ensures SaysAll(Built(Header(l), Escape(Strip(summary)), Meta(l, score)), l, summary, score)
  {
    hide Header, Meta, Escape, Strip, Truncated, Utf16Length, Decimal, Shown, ValueOf;
    var source := if Strip(l.title) != "" then Strip(l.title) else "Без названия";
    var title := Escape(source);
    var escaped := Escape(Strip(summary));
    var limit := MAX_TEXT_LENGTH - Overhead(Header(l), Meta(l, score));
    var cut := Truncated(escaped, limit);
    var budget := match l.budget { case None => None case Some(b) => Some(Escape(b)) };
    var digits := Decimal(score);
    var text := Built(Header(l), escaped, Meta(l, score));
    OuterTruncationIff(Header(l), escaped, Meta(l, score));
    JoinedReads(Header(l), cut, Meta(l, score));
    HeaderReads(l);
    MetaReads(l, score);
    assert Reads(text, "https://profi.ru/backoffice/n.php?o=" + l.id, title, cut, budget, digits);
    EscapeReadsBack(source);
    EscapeReadsBack(Strip(summary));
    if l.budget.Some? { EscapeReadsBack(l.budget.value); }
    DecimalReads(score);
    if Utf16Length(escaped) <= limit { WholeSummary(escaped, limit); }
  }

  lemma WholeSummary(summary: string, limit: int)
    requires Utf16Length(summary) <= limit
    ensures Truncated(summary, limit) == summary
  {
    if limit <= 0 {
      EmptyWhenZero(summary);
    }
  }

  lemma EmptyWhenZero(s: string)
    requires Utf16Length(s) == 0
    ensures s == ""
  {
  }

  // ----- Tags -----

  predicate Bracket(c: char) { c == '<' || c == '>' }

  lemma AbsentCount(s: string, c: char)
    requires c !in s
    ensures multiset(s)[c] == 0
  {
  }

  lemma DecimalIsDigits(n: nat)
    ensures forall c | c in Decimal(n) :: '0' <= c <= '9'
  {
    DecimalReads(n);
  }

  /** The header holds its own four tags and whatever brackets the id brings; the meta holds none. */
  lemma FrameTags(l: Listing, score: nat, c: char)
    requires Bracket(c)
    ensures multiset(Header(l))[c] == 4 + multiset(l.id)[c]
    ensures multiset(Meta(l, score))[c] == 0
  {
    HeaderTags(l, c);
    MetaTags(l, score, c);
  }

  lemma PartsCount(a: string, b: string, d: string, e: string, f: string, g: string, c: char)
    ensures multiset(a + b + d + e + f + g)[c]
            == multiset(a)[c] + multiset(b)[c] + multiset(d)[c] + multiset(e)[c] + multiset(f)[c] + multiset(g)[c]
  {
  }

  lemma HeaderTags(l: Listing, c: char)
    requires Bracket(c)
    ensures multiset(Header(l))[c] == 4 + multiset(l.id)[c]
  {
    hide Escape, Strip, Url;
    var source := if Strip(l.title) != "" then Strip(l.title) else "Без названия";
    EscapedHasNoTags(source);
    AbsentCount(Escape(source), c);
    UrlCount(l, c);
    OpeningBrackets(c);
    LinkBracket(c);
    MiddleBracket(c);
    ClosingBrackets(c);
    PartsCount("\U{1F9E9} <b>", "<a href=\"", Url(l), "\">", Escape(source), "</a></b>", c);
  }

  lemma UrlCount(l: Listing, c: char)
    requires Bracket(c)
    ensures multiset(Url(l))[c] == multiset(l.id)[c]
  {
    PathHasNoBracket(c);
    AbsentBefore("https://profi.ru/backoffice/n.php?o=", l.id, c);
  }

  lemma PathHasNoBracket(c: char)
    requires Bracket(c)
    ensures c !in "https://profi.ru/backoffice/n.php?o="
  {
  }

  lemma AbsentBefore(a: string, b: string, c: char)
    requires c !in a
    ensures multiset(a + b)[c] == multiset(b)[c]
  {
    AbsentCount(a, c);
  }

  lemma OpeningBrackets(c: char)
    requires Bracket(c)
    ensures multiset("\U{1F9E9} <b>")[c] == 1
  {
  }

  lemma LinkBracket(c: char)
    requires Bracket(c)
    ensures multiset("<a href=\"")[c] == if c == '<' then 1 else 0
  {
  }

  lemma MiddleBracket(c: char)
    requires Bracket(c)
    ensures multiset("\">")[c] == if c == '>' then 1 else 0
  {
  }

  lemma ClosingBrackets(c: char)
    requires Bracket(c)
    ensures multiset("</a></b>")[c] == 2
  {
  }

  lemma MetaTags(l: Listing, score: nat, c: char)
    requires Bracket(c)
    ensures multiset(Meta(l, score))[c] == 0
  {
    hide Escape, Decimal;
    DecimalIsDigits(score);
    var line := "\U{1F3AF} Соответствие: " + Decimal(score) + "/100";
    assert c !in line;
    if l.budget.Some? {
      EscapedHasNoTags(l.budget.value);
    }
    AbsentCount(Meta(l, score), c);
  }

  lemma PrefixCount(s: string, n: nat, c: char)
    requires n <= |s|
    ensures multiset(s[..n])[c] <= multiset(s)[c]
  {
    assert s == s[..n] + s[n..];
  }

  lemma TruncatedCount(text: string, limit: int, c: char)
    requires Bracket(c)
    ensures multiset(Truncated(text, limit))[c] <= multiset(text)[c]
  {
    hide Fit, RStrip;
    if limit > 0 && Utf16Length(text) > limit {
      var kept := text[..Fit(text, limit - 1)];
      PrefixCount(text, Fit(text, limit - 1), c);
      PrefixCount(kept, |RStrip(kept)|, c);
    }
  }

  /**
   Nobody but llm writes a tag: whatever title, budget and summary say, the message holds at most the
   four tags of the header, next to the brackets of the order id; exactly these when nothing of the
   frame had to be cut.
   */
  lemma TagsAreOurs(l: Listing, summary: string, score: nat, c: char)
    requires Bracket(c)
    ensures var text := Built(Header(l), Escape(summary), Meta(l, score));
            && multiset(text)[c] <= 4 + multiset(l.id)[c]
            && (Utf16Length(Header(l)) + 2 + Utf16Length(Meta(l, score)) <= MAX_TEXT_LENGTH ==>
                  multiset(text)[c] == 4 + multiset(l.id)[c])
  {
    hide Header, Meta, Escape, Truncated, Utf16Length;
    var header, meta := Header(l), Meta(l, score);
    FrameTags(l, score, c);
    EscapedHasNoTags(summary);
    AbsentCount(Escape(summary), c);
    TruncatedCount(Escape(summary), MAX_TEXT_LENGTH - Overhead(header, meta), c);
    AbsentCount(SEPARATOR, c);
    TruncatedCount(Joined(header, Escape(summary), meta), MAX_TEXT_LENGTH, c);
    OuterTruncationIff(header, Escape(summary), meta);
  }
}
