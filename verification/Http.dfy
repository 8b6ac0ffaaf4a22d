/** The resumable HTTP request parser (HttpContext.h, HttpContext.cpp).

    The specification is a family of functions on a value `Context` and the unread bytes;
    the class `HttpContext` is the source's object and is proved against them.
 */
module Http {
  import opened Options
  import opened Buffers

  datatype Method = GET | HEAD
  datatype Version = HTTP_1_0 | HTTP_1_1
  datatype Connection = CLOSE | KEEP_ALIVE
  datatype CheckState = CheckRequestLine | CheckHeader | CheckBody | CheckEnd
  datatype LineState = LINE_OK | LINE_BAD | LINE_OPEN
  datatype RequestState =
    NO_REQUEST | GET_REQUEST | BAD_REQUEST | FORBIDDEN_REQUEST | INTERNAL_ERROR | CLOSED_CONNECTION

  datatype Context = Context(
    verb: Method,
    version: Version,
    connection: Connection,
    request: RequestState,
    check: CheckState,
    uri: string,
    line: string)

  const INITIAL := Context(GET, HTTP_1_0, CLOSE, NO_REQUEST, CheckRequestLine, "", "")

  // ------------------------------------------------------------- parseLine

  /** The first position at or after `from` holding a CR that is not the last character; |s| if none. */
  function FirstInnerCr(s: string, from: nat := 0): (i: nat)
    requires from <= |s|
    ensures from <= i <= |s|
    ensures i < |s| ==> s[i] == '\r' && i + 1 < |s|
    ensures forall j :: from <= j < i && j + 1 < |s| ==> s[j] != '\r'
    decreases |s| - from
  {
    if from == |s| then from
    else if s[from] == '\r' && from + 1 < |s| then from
    else FirstInnerCr(s, from + 1)
  }

  function LineStatus(raw: string): LineState {
    var i := FirstInnerCr(raw);
    if i == |raw| then LINE_OPEN else if raw[i + 1] == '\n' then LINE_OK else LINE_BAD
  }

  /** The text parseLine leaves in m_new_line: the CR LF of a complete line becomes two NULs. */
  function LineText(raw: string): string {
    var i := FirstInnerCr(raw);
    if LineStatus(raw) == LINE_OK then raw[..i] + (['\0', '\0'] + raw[i + 2..]) else raw
  }

  function StatusOf(unread: string): LineState { LineStatus(LineOf(unread)) }

  /** The position of the first CR of `s`, or |s|: the reference reading of a line. */
  function FirstCr(s: string, from: nat := 0): (i: nat)
    requires from <= |s|
    ensures from <= i <= |s|
    ensures i < |s| ==> s[i] == '\r'
    ensures forall j :: from <= j < i ==> s[j] != '\r'
    decreases |s| - from
  {
    if from == |s| || s[from] == '\r' then from else FirstCr(s, from + 1)
  }

  /** parseLine against section 2.2 of RFC 9112: a line is complete exactly when the first CR is
      followed by LF, and then that line and nothing else leaves the queue.  A CR followed by
      something else is an error as soon as one more byte has arrived; until then, and whenever
      no CR has a successor, the line is open and nothing leaves the queue. */
  lemma ParseLineExact(u: string)
    ensures
      var cr := FirstCr(u);
      && (StatusOf(u) == LINE_OK <==> cr + 1 < |u| && u[cr + 1] == '\n')
      && (StatusOf(u) == LINE_BAD <==> cr + 2 < |u| && u[cr + 1] != '\n')
      && (StatusOf(u) == LINE_OK ==> LineText(LineOf(u)) == u[..cr] + ['\0', '\0'] && AfterLine(u) == u[cr + 2..])
      && (StatusOf(u) == LINE_OPEN ==> AfterLine(u) == u)
  {
    if FirstCrlf(u) < |u| {
      LineWithEnd(u);
    } else {
      LineWithoutEnd(u);
    }
  }

  /** The queue holds a CR LF: the line up to it is complete, unless a lone CR comes first. */
  lemma LineWithEnd(u: string)
    requires FirstCrlf(u) < |u|
    ensures
      var cr := FirstCr(u);
      && cr + 1 < |u|
      && (if u[cr + 1] == '\n'
          then StatusOf(u) == LINE_OK && LineText(LineOf(u)) == u[..cr] + ['\0', '\0'] && AfterLine(u) == u[cr + 2..]
          else StatusOf(u) == LINE_BAD && cr + 2 < |u|)
  {
    var cr, e := FirstCr(u), FirstCrlf(u);
    assert CrlfAt(u, e) && cr <= e;
    if cr < e {
      LoneCr(u);
    } else {
      CrFirst(u);
    }
  }

  lemma LoneCr(u: string)
    requires FirstCr(u) < FirstCrlf(u) < |u|
    ensures var cr := FirstCr(u); cr + 2 < |u| && u[cr + 1] != '\n' && StatusOf(u) == LINE_BAD
  {
    var cr, raw := FirstCr(u), u[..FirstCrlf(u) + 2];
    assert !CrlfAt(u, cr);
    assert raw[cr] == '\r' && raw[cr + 1] == u[cr + 1];
    InnerCrIs(raw, cr);
  }

  lemma CrFirst(u: string)
    requires FirstCr(u) == FirstCrlf(u) < |u|
    ensures
      var cr := FirstCr(u);
      && CrlfAt(u, cr) && StatusOf(u) == LINE_OK
      && LineText(LineOf(u)) == u[..cr] + ['\0', '\0'] && AfterLine(u) == u[cr + 2..]
  {
    CutAt(u, FirstCr(u));
  }

  lemma CutAt(u: string, i: nat)
    requires CrlfAt(u, i) && i == FirstCrlf(u) && forall j :: 0 <= j < i ==> u[j] != '\r'
    ensures StatusOf(u) == LINE_OK && LineText(LineOf(u)) == u[..i] + ['\0', '\0'] && AfterLine(u) == u[i + 2..]
  {
    var raw := u[..i + 2];
    assert raw[..i] == u[..i];
    RawLine(raw);
  }

  lemma RawLine(raw: string)
    requires |raw| >= 2 && raw[|raw| - 2] == '\r' && raw[|raw| - 1] == '\n'
    requires forall j :: 0 <= j < |raw| - 2 ==> raw[j] != '\r'
    ensures LineStatus(raw) == LINE_OK && LineText(raw) == raw[..|raw| - 2] + ['\0', '\0']
  {
    InnerCrIs(raw, |raw| - 2);
  }

  /** No CR LF: the line is open, or already known to be bad. */
  lemma LineWithoutEnd(u: string)
    requires FirstCrlf(u) == |u|
    ensures
      var cr := FirstCr(u);
      && !(cr + 1 < |u| && u[cr + 1] == '\n')
      && StatusOf(u) == (if cr + 2 < |u| then LINE_BAD else LINE_OPEN)
      && AfterLine(u) == u
  {
    var cr := FirstCr(u);
    assert !CrlfAt(u, cr);
    if u != [] {
      var raw := u[..|u| - 1];
      if cr + 2 < |u| {
        assert raw[cr] == '\r' && raw[cr + 1] == u[cr + 1];
        InnerCrIs(raw, cr);
      } else {
        InnerCrIs(raw, |raw|);
      }
    }
  }

  lemma InnerCrIs(s: string, i: nat)
    requires i <= |s| && (i < |s| ==> s[i] == '\r' && i + 1 < |s|)
    requires forall j :: 0 <= j < i && j + 1 < |s| ==> s[j] != '\r'
    ensures FirstInnerCr(s) == i
  {
  }

  /** A complete line stays the same complete line whatever bytes follow. */
  lemma CompleteLineIsStable(u: string, v: string)
    requires StatusOf(u) == LINE_OK
    ensures StatusOf(u + v) == LINE_OK
    ensures LineText(LineOf(u + v)) == LineText(LineOf(u))
    ensures AfterLine(u + v) == AfterLine(u) + v
  {
    ParseLineExact(u);
    ParseLineExact(u + v);
    FirstCrIsStable(u, v);
    SlicesAreStable(u, v, FirstCr(u));
  }

  lemma FirstCrIsStable(u: string, v: string)
    requires FirstCr(u) + 1 < |u|
    ensures FirstCr(u + v) == FirstCr(u) && (u + v)[FirstCr(u) + 1] == u[FirstCr(u) + 1]
  {
    var cr := FirstCr(u);
    assert (u + v)[cr] == '\r';
    assert forall k :: 0 <= k < cr ==> (u + v)[k] == u[k];
  }

  lemma SlicesAreStable(u: string, v: string, i: nat)
    requires i + 2 <= |u|
    ensures (u + v)[..i] == u[..i] && (u + v)[i + 2..] == u[i + 2..] + v
  {
  }

  // ------------------------------------------------------ parseRequestLine

  /** m_new_line[i] as std::string defines it: the terminating NUL at i == size(). */
  function At(s: string, i: nat): char
    requires i <= |s|
  {
    if i < |s| then s[i] else '\0'
  }

  /** First position at or after i holding a space or a NUL. */
  function TokenEnd(s: string, i: nat): (j: nat)
    requires i <= |s|
    ensures i <= j <= |s|
    ensures At(s, j) == ' ' || At(s, j) == '\0'
    ensures forall k :: i <= k < j ==> s[k] != ' ' && s[k] != '\0'
    decreases |s| - i
  {
    if At(s, i) == ' ' || At(s, i) == '\0' then i else TokenEnd(s, i + 1)
  }

  /** First position at or after i that does not hold a space. */
  function SpacesEnd(s: string, i: nat): (j: nat)
    requires i <= |s|
    ensures i <= j <= |s|
    ensures At(s, j) != ' '
    ensures forall k :: i <= k < j ==> s[k] == ' '
    decreases |s| - i
  {
    if At(s, i) != ' ' then i else SpacesEnd(s, i + 1)
  }

  function WordOf(s: string): string { s[..TokenEnd(s, 0)] }
  function AfterWord(s: string): string { s[TokenEnd(s, 0)..] }
  function SkipSpaces(s: string): string { s[SpacesEnd(s, 0)..] }

  function MethodText(m: Method): string { if m == GET then "GET" else "HEAD" }
  function VersionText(v: Version): string { if v == HTTP_1_0 then "HTTP/1.0" else "HTTP/1.1" }

  /** The three words parseRequestLine cuts out of a line. */
  datatype Words = Words(verb: string, uri: string, version: string)

  function WordsOf(s: string): Words {
    var r := SkipSpaces(AfterWord(s));
    Words(WordOf(s), WordOf(r), WordOf(SkipSpaces(AfterWord(r))))
  }

  function ParseRequestLineSpec(c: Context): Context {
    var w := WordsOf(c.line);
    Verdict(c, MethodOf(w.verb), w.uri, VersionOf(w.version))
  }

  /** A word is read as a method and as a version; each may fail. */
  function MethodOf(w: string): Option<Method> {
    if w == "GET" then Some(GET) else if w == "HEAD" then Some(HEAD) else None
  }

  function VersionOf(w: string): Option<Version> {
    if w == "HTTP/1.0" then Some(HTTP_1_0) else if w == "HTTP/1.1" then Some(HTTP_1_1) else None
  }

  function Verdict(c: Context, m: Option<Method>, u: string, v: Option<Version>): Context {
    if m.None? then c.(request := BAD_REQUEST)
    else if v.None? then c.(verb := m.value, uri := u, request := BAD_REQUEST)
    else c.(verb := m.value, uri := u, version := v.value, check := CheckHeader, request := NO_REQUEST)
  }

  predicate IsToken(t: string) {
    t != "" && forall k :: 0 <= k < |t| ==> t[k] != ' ' && t[k] != '\0'
  }

  predicate EndsToken(r: string) { r == "" || r[0] == ' ' || r[0] == '\0' }

  function Spaces(n: nat): (s: string)
    ensures |s| == n && forall k :: 0 <= k < n ==> s[k] == ' '
  {
    seq(n, _ => ' ')
  }

  /** The grammar of an accepted request line: method, spaces, URI, spaces, version, then
      nothing, a space or a NUL. */
  ghost predicate RequestLineShape(s: string, m: Method, u: string, v: Version) {
    exists a: nat, b: nat, tail: string ::
      && a > 0 && b > 0 && IsToken(u) && EndsToken(tail)
      && s == Line(MethodText(m), a, u, b, VersionText(v), tail)
  }

  function Line(m: string, a: nat, u: string, b: nat, v: string, tail: string): string {
    m + (Spaces(a) + (u + (Spaces(b) + (v + tail))))
  }

  lemma TokenEndIs(s: string, i: nat, j: nat)
    requires i <= j <= |s|
    requires At(s, j) == ' ' || At(s, j) == '\0'
    requires forall k :: i <= k < j ==> s[k] != ' ' && s[k] != '\0'
    ensures TokenEnd(s, i) == j
  {
  }

  lemma SpacesEndIs(s: string, i: nat, j: nat)
    requires i <= j <= |s|
    requires At(s, j) != ' '
    requires forall k :: i <= k < j ==> s[k] == ' '
    ensures SpacesEnd(s, i) == j
  {
  }

  /** Scanning a suffix is scanning the whole from that point. */
  lemma ScansShift(s: string, i: nat)
    requires i <= |s|
    ensures TokenEnd(s, i) == i + TokenEnd(s[i..], 0)
    ensures SpacesEnd(s, i) == i + SpacesEnd(s[i..], 0)
  {
    var t := s[i..];
    var e, b := TokenEnd(t, 0), SpacesEnd(t, 0);
    assert forall k :: i <= k < |s| ==> s[k] == t[k - i];
    TokenEndIs(s, i, i + e);
    SpacesEndIs(s, i, i + b);
  }

  lemma TokenThen(t: string, r: string)
    requires IsToken(t) && EndsToken(r)
    ensures WordOf(t + r) == t && AfterWord(t + r) == r
  {
    assert |t| < |t + r| ==> (t + r)[|t|] == r[0];
    TokenEndIs(t + r, 0, |t|);
  }

  lemma SpacesThen(n: nat, r: string)
    requires r != "" && r[0] != ' '
    ensures SkipSpaces(Spaces(n) + r) == r
  {
    assert (Spaces(n) + r)[n] == r[0];
    SpacesEndIs(Spaces(n) + r, 0, n);
  }

  lemma TextsAreTokens(m: Method, v: Version)
    ensures IsToken(MethodText(m)) && IsToken(VersionText(v))
  {
  }

  lemma WordsOfLine(m: string, a: nat, u: string, b: nat, v: string, tail: string)
    requires a > 0 && b > 0 && IsToken(m) && IsToken(u) && IsToken(v) && EndsToken(tail)
    ensures WordsOf(Line(m, a, u, b, v, tail)) == Words(m, u, v)
  {
    var r3 := v + tail;
    var r2 := Spaces(b) + r3;
    var r1 := u + r2;
    var r0 := Spaces(a) + r1;
    TokenThen(m, r0);
    SpacesThen(a, r1);
    TokenThen(u, r2);
    SpacesThen(b, r3);
    TokenThen(v, tail);
  }

  /** Every line of the grammar is accepted with exactly its own method, URI and version. */
  lemma RequestLineComplete(c: Context, m: Method, u: string, v: Version)
    requires RequestLineShape(c.line, m, u, v)
    ensures ParseRequestLineSpec(c)
         == c.(verb := m, uri := u, version := v, check := CheckHeader, request := NO_REQUEST)
  {
    var a: nat, b: nat, tail :|
      && a > 0 && b > 0 && IsToken(u) && EndsToken(tail)
      && c.line == Line(MethodText(m), a, u, b, VersionText(v), tail);
    TextsAreTokens(m, v);
    WordsOfLine(MethodText(m), a, u, b, VersionText(v), tail);
  }

  lemma SplitSpaces(s: string) returns (n: nat)
    ensures s == Spaces(n) + SkipSpaces(s)
    ensures EndsToken(s) && SkipSpaces(s) != "" && SkipSpaces(s)[0] != '\0' ==> n > 0
    ensures SkipSpaces(s) == "" || SkipSpaces(s)[0] != ' '
  {
    n := SpacesEnd(s, 0);
    assert s[..n] == Spaces(n);
  }

  lemma SplitWord(s: string)
    ensures s == WordOf(s) + AfterWord(s) && EndsToken(AfterWord(s))
    ensures WordOf(s) != "" ==> IsToken(WordOf(s)) && s[0] == WordOf(s)[0]
    ensures WordOf(s) == "" ==> AfterWord(s) == s
  {
  }

  /** Cutting a line whose third word is not empty gives back the line. */
  lemma LineOfWords(s: string) returns (a: nat, b: nat, tail: string)
    requires IsToken(WordsOf(s).version)
    ensures var w := WordsOf(s); s == Line(w.verb, a, w.uri, b, w.version, tail)
    ensures a > 0 && b > 0 && IsToken(WordsOf(s).uri) && EndsToken(tail)
  {
    var r0 := AfterWord(s);
    var r1 := SkipSpaces(r0);
    var r2 := AfterWord(r1);
    var r3 := SkipSpaces(r2);
    tail := AfterWord(r3);
    SplitWord(s);
    a := SplitSpaces(r0);
    SplitWord(r1);
    b := SplitSpaces(r2);
    SplitWord(r3);
    assert r3[0] != '\0';
    assert b > 0 && r2[0] == ' ';
    assert WordOf(r1) != "";
  }

  /** Nothing else is accepted: an accepted line has the grammar's shape, with the parsed fields. */
  lemma RequestLineSound(c: Context)
    requires ParseRequestLineSpec(c).request != BAD_REQUEST
    ensures
      var r := ParseRequestLineSpec(c);
      RequestLineShape(c.line, r.verb, r.uri, r.version)
  {
    var r := ParseRequestLineSpec(c);
    TextsAreTokens(r.verb, r.version);
    assert WordsOf(c.line).version == VersionText(r.version);
    assert WordsOf(c.line).verb == MethodText(r.verb);
    var a, b, tail := LineOfWords(c.line);
  }

  // ---------------------------------------------------- parseMessageHeader

  function Lower(ch: char): char {
    if 'A' <= ch <= 'Z' then (ch as int - 'A' as int + 'a' as int) as char else ch
  }

  /** strncasecmp(s + i, pat, |pat|) == 0 for a NUL-free pattern. */
  predicate MatchesIgnoringCase(s: string, i: nat, pat: string) {
    i + |pat| <= |s| && forall k :: 0 <= k < |pat| ==> Lower(s[i + k]) == Lower(pat[k])
  }

  const CONNECTION_FIELD := "Connection:"
  const KEEP_ALIVE_VALUE := "Keep-Alive"

  predicate IsConnectionHeader(h: string) { MatchesIgnoringCase(h, 0, CONNECTION_FIELD) }

  predicate IsKeepAliveHeader(h: string) {
    && IsConnectionHeader(h)
    && MatchesIgnoringCase(h, SpacesEnd(h, 11), KEEP_ALIVE_VALUE)
  }

  function ParseMessageHeaderSpec(c: Context): Context {
    if c.line != "" && c.line[0] == '\0' then c.(check := CheckBody, request := NO_REQUEST)
    else if IsConnectionHeader(c.line) then
      if IsKeepAliveHeader(c.line) then c.(connection := KEEP_ALIVE, request := NO_REQUEST)
      else c.(request := BAD_REQUEST)
    else c.(request := NO_REQUEST)
  }

  function ParseMessageBodySpec(c: Context): Context {
    c.(check := CheckEnd, request := GET_REQUEST)
  }

  function ResetSpec(c: Context): Context { INITIAL.(connection := KEEP_ALIVE) }

  // ----------------------------------------------------- handleHttpRequest

  datatype Parse = Parse(ctx: Context, unread: string)

  /** Entered in CHECK_STATE_END with a complete line in the queue, the loop of the source
      repeats forever (no branch applies and the status is not recomputed). */
  predicate Diverges(c: Context, u: string) {
    c.check == CheckEnd && StatusOf(u) == LINE_OK
  }

  /** One pass through the body of the source's while loop, entered with LINE_OK. */
  datatype Iteration =
    | Return(c: Context, u: string)
    | Break(c: Context, u: string)
    | Continue(c: Context, u: string, fetch: bool)

  function LoopBody(c: Context, u: string): Iteration {
    match c.check
    case CheckRequestLine =>
      var d := ParseRequestLineSpec(c);
      if d.request == BAD_REQUEST then Return(d, u) else Continue(d, u, true)
    case CheckHeader =>
      var d := ParseMessageHeaderSpec(c);
      if d.request == BAD_REQUEST then Return(d, u)
      else Continue(d, u, d.check != CheckBody)
    case CheckBody =>
      var d := ParseMessageBodySpec(c);
      if d.request == BAD_REQUEST then Return(d, u) else Break(d, u)
    case CheckEnd => Continue(c, u, false)
  }

  /** The loop after at most `n` passes without fetching a new line. */
  function Passes(c: Context, u: string, n: nat): Iteration
    decreases n
  {
    if n == 0 then Continue(c, u, false)
    else
      var r := LoopBody(c, u);
      if r.Continue? && !r.fetch then Passes(r.c, r.u, n - 1) else r
  }

  /** In END the loop never leaves and never fetches a line, however often it runs. */
  lemma {:induction false} EndNeverLeavesTheLoop(c: Context, u: string, n: nat)
    requires c.check == CheckEnd
    ensures Passes(c, u, n) == Continue(c, u, false)
  {
    if n > 0 {
      EndNeverLeavesTheLoop(c, u, n - 1);
    }
  }

  /** From any other state at most two passes run before the loop stops or fetches a new line. */
  lemma TwoPassesSuffice(c: Context, u: string)
    requires c.check != CheckEnd
    ensures var r := Passes(c, u, 2); r.Continue? ==> r.fetch
  {
    var r := LoopBody(c, u);
    if r.Continue? && !r.fetch {
      assert r.c.check == CheckBody;
      assert Passes(r.c, r.u, 1) == LoopBody(r.c, r.u);
    }
  }

  lemma AfterLineShrinks(u: string)
    requires StatusOf(u) == LINE_OK
    ensures |AfterLine(u)| < |u|
  {
    ParseLineExact(u);
  }

  function Handle(c: Context, u: string): Parse
    requires !Diverges(c, u)
    decreases |u|
  {
    var c := c.(line := LineText(LineOf(u)));
    var rest := AfterLine(u);
    match StatusOf(u)
    case LINE_OPEN => Parse(c.(request := NO_REQUEST), rest)
    case LINE_BAD => Parse(c.(request := BAD_REQUEST), rest)
    case LINE_OK =>
      AfterLineShrinks(u);
      match c.check
      case CheckRequestLine =>
        var d := ParseRequestLineSpec(c);
        if d.request == BAD_REQUEST then Parse(d, rest) else Handle(d, rest)
      case CheckHeader =>
        var d := ParseMessageHeaderSpec(c);
        if d.request == BAD_REQUEST then Parse(d, rest)
        else if d.check == CheckBody then Parse(ParseMessageBodySpec(d), rest)
        else Handle(d, rest)
      case CheckBody => Parse(ParseMessageBodySpec(c), rest)
  }

  /** What is left of handleHttpRequest when `status` has just been computed, `c` holds the
      fetched line and `u` is unread. */
  function Resume(status: LineState, c: Context, u: string): Parse
    requires status == LINE_OK ==> c.check != CheckEnd
  {
    match status
    case LINE_OPEN => Parse(c.(request := NO_REQUEST), u)
    case LINE_BAD => Parse(c.(request := BAD_REQUEST), u)
    case LINE_OK =>
      match c.check
      case CheckRequestLine =>
        var d := ParseRequestLineSpec(c);
        if d.request == BAD_REQUEST then Parse(d, u) else Handle(d, u)
      case CheckHeader =>
        var d := ParseMessageHeaderSpec(c);
        if d.request == BAD_REQUEST then Parse(d, u)
        else if d.check == CheckBody then Parse(ParseMessageBodySpec(d), u)
        else Handle(d, u)
      case CheckBody => Parse(ParseMessageBodySpec(c), u)
  }

  lemma HandleIsResume(c: Context, u: string)
    requires !Diverges(c, u)
    ensures Handle(c, u) == Resume(StatusOf(u), c.(line := LineText(LineOf(u))), AfterLine(u))
  {
  }

  // ------------------------------------------------------- incrementality

  lemma VerdictForgets(c: Context, r: RequestState)
    ensures ParseRequestLineSpec(c.(request := r)) == ParseRequestLineSpec(c)
  {
    var d, w := c.(request := r), WordsOf(c.line);
    assert WordsOf(d.line) == w;
  }

  lemma HeaderForgets(c: Context, r: RequestState)
    ensures ParseMessageHeaderSpec(c.(request := r)) == ParseMessageHeaderSpec(c)
  {
  }

  lemma ResumeForgets(status: LineState, c: Context, r: RequestState, u: string)
    requires c.check != CheckEnd
    ensures Resume(status, c.(request := r), u) == Resume(status, c, u)
  {
    if status == LINE_OK {
      if c.check == CheckRequestLine {
        VerdictForgets(c, r);
      } else if c.check == CheckHeader {
        HeaderForgets(c, r);
      }
    }
  }

  /** The line left over from the last call and the last verdict do not influence the next call. */
  lemma HandleForgets(c: Context, l: string, r: RequestState, u: string)
    requires c.check != CheckEnd
    ensures Handle(c.(line := l, request := r), u) == Handle(c, u)
  {
    var d := c.(line := LineText(LineOf(u)));
    HandleIsResume(c, u);
    HandleIsResume(c.(line := l, request := r), u);
    assert c.(line := l, request := r).(line := d.line) == d.(request := r);
    ResumeForgets(StatusOf(u), d, r, AfterLine(u));
  }

  lemma {:induction false} HandleLeavesNoBodyState(c: Context, u: string)
    requires c.check != CheckEnd
    ensures var r := Handle(c, u).ctx.request; r == NO_REQUEST || r == GET_REQUEST || r == BAD_REQUEST
    ensures Handle(c, u).ctx.request == NO_REQUEST ==> Handle(c, u).ctx.check != CheckEnd
    ensures Handle(c, u).ctx.request == GET_REQUEST <==> Handle(c, u).ctx.check == CheckEnd
    decreases |u|
  {
    if StatusOf(u) == LINE_OK {
      AfterLineShrinks(u);
      var d := c.(line := LineText(LineOf(u)));
      var rest := AfterLine(u);
      if d.check == CheckRequestLine && ParseRequestLineSpec(d).request != BAD_REQUEST {
        HandleLeavesNoBodyState(ParseRequestLineSpec(d), rest);
      } else if d.check == CheckHeader {
        var e := ParseMessageHeaderSpec(d);
        if e.request != BAD_REQUEST && e.check != CheckBody {
          HandleLeavesNoBodyState(e, rest);
        }
      }
    }
  }

  /** Feeding a request in two pieces, the first of which is reported incomplete, gives the same
      parser state and the same unread bytes as feeding it at once. */
  lemma {:induction false} IncrementalEqualsOneShot(c: Context, u: string, v: string)
    requires c.check != CheckEnd
    requires Handle(c, u).ctx.request == NO_REQUEST
    ensures Handle(c, u).ctx.check != CheckEnd
    ensures
      var first := Handle(c, u);
      Handle(first.ctx, first.unread + v) == Handle(c, u + v)
    decreases |u|
  {
    HandleLeavesNoBodyState(c, u);
    match StatusOf(u)
    case LINE_BAD =>
    case LINE_OPEN =>
      OpenLineWaits(c, u, v);
    case LINE_OK =>
      AfterLineShrinks(u);
      var e := LineStep(c, u, v);
      IncrementalEqualsOneShot(e, AfterLine(u), v);
  }

  /** An open line leaves all bytes unread, and the parser as it was but for the line. */
  lemma OpenLineWaits(c: Context, u: string, v: string)
    requires c.check != CheckEnd && StatusOf(u) == LINE_OPEN
    ensures
      var first := Handle(c, u);
      first.ctx.check == c.check && Handle(first.ctx, first.unread + v) == Handle(c, u + v)
  {
    ParseLineExact(u);
    HandleForgets(c, LineText(LineOf(u)), NO_REQUEST, u + v);
  }

  /** A complete line that does not end the request is parsed alike whatever follows it. */
  lemma LineStep(c: Context, u: string, v: string) returns (e: Context)
    requires c.check != CheckEnd && StatusOf(u) == LINE_OK && Handle(c, u).ctx.request == NO_REQUEST
    ensures e.check != CheckEnd
    ensures Handle(c, u) == Handle(e, AfterLine(u)) && Handle(c, u + v) == Handle(e, AfterLine(u) + v)
  {
    var d := c.(line := LineText(LineOf(u)));
    CompleteLineIsStable(u, v);
    HandleIsResume(c, u);
    HandleIsResume(c, u + v);
    ResumeStep(d, AfterLine(u));
    ResumeStep(d, AfterLine(u) + v);
    e := if d.check == CheckRequestLine then ParseRequestLineSpec(d) else ParseMessageHeaderSpec(d);
  }

  lemma ResumeStep(d: Context, u: string)
    requires d.check != CheckEnd
    ensures
      var e := if d.check == CheckRequestLine then ParseRequestLineSpec(d) else ParseMessageHeaderSpec(d);
      var goesOn := d.check != CheckBody && e.request == NO_REQUEST && e.check != CheckBody;
      && (goesOn ==> e.check != CheckEnd && Resume(LINE_OK, d, u) == Handle(e, u))
      && (!goesOn ==> Resume(LINE_OK, d, u).ctx.request != NO_REQUEST)
  {
  }

  function Concat(chunks: seq<string>): string {
    if chunks == [] then "" else chunks[0] + Concat(chunks[1..])
  }

  /** Every chunk but the last is reported as an incomplete request. */
  predicate Incomplete(p: Parse, chunks: seq<string>)
    requires p.ctx.check != CheckEnd
    decreases |chunks|
  {
    |chunks| >= 2 ==>
      var q := Handle(p.ctx, p.unread + chunks[0]);
      q.ctx.request == NO_REQUEST && q.ctx.check != CheckEnd && Incomplete(q, chunks[1..])
  }

  /** Appends and handles each chunk in turn. */
  function Feed(p: Parse, chunks: seq<string>): Parse
    requires chunks != []
    requires p.ctx.check != CheckEnd
    requires Incomplete(p, chunks)
    decreases |chunks|
  {
    var q := Handle(p.ctx, p.unread + chunks[0]);
    if |chunks| == 1 then q else Feed(q, chunks[1..])
  }

  /** However a request is cut into chunks, the parse is that of the whole. */
  lemma {:induction false} AnyChunkingEqualsOneShot(p: Parse, chunks: seq<string>)
    requires chunks != []
    requires p.ctx.check != CheckEnd
    requires Incomplete(p, chunks)
    ensures Feed(p, chunks) == Handle(p.ctx, p.unread + Concat(chunks))
    decreases |chunks|
  {
    var u, v := p.unread + chunks[0], Concat(chunks[1..]);
    assert u + v == p.unread + Concat(chunks);
    if |chunks| == 1 {
      assert u + v == u;
    } else {
      AnyChunkingEqualsOneShot(Handle(p.ctx, u), chunks[1..]);
      IncrementalEqualsOneShot(p.ctx, u, v);
    }
  }
}
