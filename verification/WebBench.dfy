/** The requests webbench sends, and what the server makes of them (webbench/webbench.c,
    build_request). */
module WebBench {
  import opened Options
  import opened Buffers
  import opened Http
  import opened RoundTrip

  datatype BenchMethod = BenchGet | BenchHead | BenchOptions | BenchTrace

  /** The options build_request reads. */
  datatype Job = Job(m: BenchMethod, url: string, proxy: bool, reload: bool, http10: nat, keepAlive: bool)

  function BenchMethodText(m: BenchMethod): string {
    match m
    case BenchGet => "GET"
    case BenchHead => "HEAD"
    case BenchOptions => "OPTIONS"
    case BenchTrace => "TRACE"
  }

  /** The protocol webbench ends up using: 0 is HTTP/0.9, 1 is HTTP/1.0, 2 is HTTP/1.1. */
  function Mode(j: Job): nat {
    var h := if j.reload && j.proxy && j.http10 < 1 then 1 else j.http10;
    match j.m
    case BenchGet => h
    case BenchHead => if h < 1 then 1 else h
    case _ => if h < 2 then 2 else h
  }

  // -------------------------------------------------------------------- URLs

  const SCHEME := "http://"
  const MAX_URL := 1500

  predicate SeparatorAt(s: string, k: nat) {
    k + 3 <= |s| && s[k] == ':' && s[k + 1] == '/' && s[k + 2] == '/'
  }

  /** strstr for "://"; |s| when there is none. */
  function Separator(s: string, from: nat := 0): (i: nat)
    requires from <= |s|
    ensures from <= i <= |s| && (i < |s| ==> SeparatorAt(s, i))
    ensures forall k :: from <= k < i ==> !SeparatorAt(s, k)
    decreases |s| - from
  {
    if from == |s| || SeparatorAt(s, from) then from else Separator(s, from + 1)
  }

  /** strchr; |s| when there is none. */
  function IndexOf(s: string, c: char, from: nat): (i: nat)
    requires from <= |s|
    ensures from <= i <= |s| && (i < |s| ==> s[i] == c)
    ensures forall k :: from <= k < i ==> s[k] != c
    decreases |s| - from
  {
    if from == |s| || s[from] == c then from else IndexOf(s, c, from + 1)
  }

  predicate GoodUrl(url: string) {
    |url| <= MAX_URL && MatchesIgnoringCase(url, 0, SCHEME) && IndexOf(url, '/', 7) < |url|
  }

  function Host(url: string): string
    requires GoodUrl(url)
  {
    var slash, colon := IndexOf(url, '/', 7), IndexOf(url, ':', 7);
    url[7..if colon < slash then colon else slash]
  }

  function Path(url: string): string
    requires GoodUrl(url)
  {
    url[IndexOf(url, '/', 7)..]
  }

  lemma SchemeSeparator(url: string)
    requires MatchesIgnoringCase(url, 0, SCHEME)
    ensures Separator(url) == 4
  {
    assert url[0] != ':' && url[1] != ':' && url[2] != ':' && url[3] != ':' && SeparatorAt(url, 4) by {
      forall k | 0 <= k < 7
        ensures Lower(url[k]) == Lower(SCHEME[k])
      {
        assert url[0 + k] == url[k];
      }
    }
  }

  /** What the two cuts mean: of a URL written as scheme, host, an optional port and a path, they
      give the host and the path. */
  lemma UrlIsCut(host: string, port: string, path: string)
    requires forall k :: 0 <= k < |host| ==> host[k] != '/' && host[k] != ':'
    requires port == "" || (port[0] == ':' && forall k :: 0 <= k < |port| ==> port[k] != '/')
    requires path != "" && path[0] == '/' && |SCHEME + host + port + path| <= MAX_URL
    ensures var url := SCHEME + host + port + path; GoodUrl(url) && Host(url) == host && Path(url) == path
  {
    var url := SCHEME + host + port + path;
    var h, p := 7 + |host|, 7 + |host| + |port|;
    assert forall k :: 0 <= k < 7 ==> url[k] == SCHEME[k];
    assert forall k :: 7 <= k < h ==> url[k] == host[k - 7];
    assert forall k :: h <= k < p ==> url[k] == port[k - h];
    assert url[p] == path[0];
    assert IndexOf(url, '/', 7) == p;
    assert url[7..h] == host && url[p..] == path;
    if port == "" {
      assert IndexOf(url, ':', 7) > p;
    } else {
      assert url[h] == port[0];
      assert IndexOf(url, ':', 7) == h;
    }
  }

  // ----------------------------------------------------------------- printing

  const USER_AGENT := "User-Agent: WebBench 1.5"
  const HOST := "Host: "
  const PRAGMA := "Pragma: no-cache"
  const STAY := "Connection: Keep-Alive"
  const LEAVE := "Connection: close"

  function Target(j: Job): string
    requires GoodUrl(j.url)
  {
    if j.proxy then j.url else Path(j.url)
  }

  function BenchHeaders(j: Job): seq<string>
    requires GoodUrl(j.url)
  {
    [USER_AGENT]
    + (if j.proxy then [] else [HOST + Host(j.url)])
    + (if j.reload && j.proxy then [PRAGMA] else [])
    + (if Mode(j) <= 1 then [] else if j.keepAlive then [STAY] else [LEAVE])
  }

  function BenchVersion(mode: nat): Version { if mode == 1 then HTTP_1_0 else HTTP_1_1 }

  /** The request as the printer of module RoundTrip writes it; in HTTP/0.9 just method and target. */
  function BenchText(j: Job): string
    requires GoodUrl(j.url)
  {
    if Mode(j) == 0 then BenchMethodText(j.m) + " " + Target(j) + CRLF
    else
      RequestLine(BenchMethodText(j.m), Target(j), VersionText(BenchVersion(Mode(j))))
      + (CRLF + HeaderBlock(BenchHeaders(j)))
  }

  /** Header lines, the last one added last. */
  function Lines(hs: seq<string>): string {
    if hs == [] then "" else Lines(hs[..|hs| - 1]) + (hs[|hs| - 1] + CRLF)
  }

  lemma AddLine(start: string, hs: seq<string>, h: string)
    ensures start + Lines(hs) + (h + CRLF) == start + Lines(hs + [h])
  {
    assert (hs + [h])[..|hs|] == hs;
  }

  lemma {:induction false} LinesCons(h: string, hs: seq<string>)
    ensures Lines([h] + hs) == h + CRLF + Lines(hs)
    decreases |hs|
  {
    if hs == [] {
      assert [h] + hs == [h] && [h][..0] == [];
    } else {
      var k := |hs| - 1;
      LinesCons(h, hs[..k]);
      assert ([h] + hs)[..|hs|] == [h] + hs[..k];
      assert ([h] + hs)[|hs|] == hs[k];
      Regroup(h + CRLF, Lines(hs[..k]), hs[k] + CRLF);
    }
  }

  lemma {:induction false} BlockIsLines(hs: seq<string>)
    ensures HeaderBlock(hs) == Lines(hs) + CRLF
  {
    if hs != [] {
      BlockIsLines(hs[1..]);
      LinesCons(hs[0], hs[1..]);
      assert [hs[0]] + hs[1..] == hs;
    }
  }

  /** build_request; None where it exits. */
  method BuildRequest(j: Job) returns (request: Option<string>)
    requires j.http10 <= 2
    ensures request == if GoodUrl(j.url) then Some(BenchText(j)) else None
  {
    var http10 := j.http10;
    if j.reload && j.proxy && http10 < 1 { http10 := 1; }
    if j.m == BenchHead && http10 < 1 { http10 := 1; }
    if j.m == BenchOptions && http10 < 2 { http10 := 2; }
    if j.m == BenchTrace && http10 < 2 { http10 := 2; }
    var text := BenchMethodText(j.m);
    text := text + " ";
    if Separator(j.url) == |j.url| || |j.url| > MAX_URL || !MatchesIgnoringCase(j.url, 0, SCHEME) {
      UnseparatedIsBad(j.url);
      return None;
    }
    SchemeSeparator(j.url);
    var i := Separator(j.url) + 3;
    var slash := IndexOf(j.url, '/', i);
    if slash == |j.url| {
      return None;
    }
    var host := "";
    if !j.proxy {
      var colon := IndexOf(j.url, ':', i);
      if colon < |j.url| && colon < slash {
        host := j.url[i..colon];
      } else {
        host := j.url[i..slash];
      }
      text := text + j.url[slash..];
    } else {
      text := text + j.url;
    }
    text := Finish(text, j, http10, host);
    return Some(text);
  }

  /** The rest of build_request, once method and target are printed. */
  method Finish(start: string, j: Job, http10: nat, host: string) returns (text: string)
    requires GoodUrl(j.url) && http10 == Mode(j) <= 2 && (!j.proxy ==> host == Host(j.url))
    requires start == BenchMethodText(j.m) + " " + Target(j)
    ensures text == BenchText(j)
  {
    text := start;
    if http10 == 1 {
      text := text + (" " + VersionText(HTTP_1_0));
    } else if http10 == 2 {
      text := text + (" " + VersionText(HTTP_1_1));
    }
    LineReassociates(BenchMethodText(j.m), Target(j), VersionText(BenchVersion(http10)));
    ghost var line := text;
    text := text + CRLF;
    if http10 > 0 {
      text := AppendHeaders(text, j, host);
      Regroup(line, CRLF, HeaderBlock(BenchHeaders(j)));
    }
  }

  lemma UnseparatedIsBad(url: string)
    requires Separator(url) == |url| || |url| > MAX_URL || !MatchesIgnoringCase(url, 0, SCHEME)
    ensures !GoodUrl(url)
  {
    if MatchesIgnoringCase(url, 0, SCHEME) {
      SchemeSeparator(url);
    }
  }

  /** The header part of build_request. */
  method AppendHeaders(start: string, j: Job, host: string) returns (text: string)
    requires GoodUrl(j.url) && 0 < Mode(j) && (!j.proxy ==> host == Host(j.url))
    ensures text == start + HeaderBlock(BenchHeaders(j))
  {
    var connection := if j.keepAlive then STAY else LEAVE;
    ghost var hs := [];
    text, hs := AppendWhen(start, true, USER_AGENT, start, hs);
    text, hs := AppendWhen(text, !j.proxy, HOST + host, start, hs);
    text, hs := AppendWhen(text, j.reload && j.proxy, PRAGMA, start, hs);
    text, hs := AppendWhen(text, Mode(j) > 1, connection, start, hs);
    assert hs == BenchHeaders(j);
    BlockIsLines(hs);
    Regroup(start, Lines(hs), CRLF);
    text := text + CRLF;
  }

  /** if (wanted) strcat(request, header line) */
  method AppendWhen(text: string, wanted: bool, h: string, ghost start: string, ghost hs: seq<string>)
    returns (longer: string, ghost lines: seq<string>)
    requires text == start + Lines(hs)
    ensures lines == hs + (if wanted then [h] else [])
    ensures longer == start + Lines(lines)
  {
    longer, lines := text, hs;
    if wanted {
      AddLine(start, hs, h);
      longer, lines := text + (h + CRLF), hs + [h];
    }
  }

  lemma Regroup(a: string, b: string, c: string)
    ensures (a + b) + c == a + (b + c)
  {
  }

  lemma LineReassociates(m: string, u: string, v: string)
    ensures m + " " + u + (" " + v) == RequestLine(m, u, v)
  {
  }

  // ---------------------------------------------------------- what is accepted

  predicate CleanUrl(url: string) { IsToken(url) && NoCr(url) }

  lemma BenchHeaderTexts(j: Job)
    requires GoodUrl(j.url) && CleanUrl(j.url)
    ensures forall h :: h in BenchHeaders(j) ==> HeaderText(h)
  {
    HostIsClean(j.url);
    HeaderTextAppend(HOST, Host(j.url));
    FixedHeaderTexts();
  }

  lemma HostIsClean(url: string)
    requires GoodUrl(url) && CleanUrl(url)
    ensures NoCr(Host(url))
  {
    assert forall k :: 0 <= k < |Host(url)| ==> Host(url)[k] == url[7 + k];
  }

  lemma HeaderTextAppend(a: string, b: string)
    requires HeaderText(a) && NoCr(b)
    ensures HeaderText(a + b)
  {
    assert forall k :: 0 <= k < |a + b| ==> (a + b)[k] == if k < |a| then a[k] else b[k - |a|];
  }

  lemma FixedHeaderTexts()
    ensures HeaderText(HOST) && HeaderText(USER_AGENT) && HeaderText(PRAGMA) && HeaderText(STAY) && HeaderText(LEAVE)
  {
  }

  lemma BenchHeadersAcceptable(j: Job)
    requires GoodUrl(j.url)
    ensures (forall h :: h in BenchHeaders(j) ==> Acceptable(h)) <==> Mode(j) <= 1 || j.keepAlive
  {
    OtherHeaders(Host(j.url));
    ConnectionHeaders();
    if Mode(j) > 1 {
      assert (if j.keepAlive then STAY else LEAVE) in BenchHeaders(j);
    }
  }

  lemma OtherHeaders(host: string)
    ensures !IsConnectionHeader(USER_AGENT) && !IsConnectionHeader(HOST + host) && !IsConnectionHeader(PRAGMA)
  {
    assert Lower(CONNECTION_FIELD[0]) == 'c';
    assert Lower(USER_AGENT[0]) == 'u' && Lower((HOST + host)[0]) == 'h' && Lower(PRAGMA[0]) == 'p';
  }

  lemma ConnectionHeaders()
    ensures IsConnectionHeader(LEAVE) && !IsKeepAliveHeader(LEAVE)
    ensures IsConnectionHeader(STAY) && IsKeepAliveHeader(STAY)
  {
    SpacesEndIs(LEAVE, 11, 12);
    SpacesEndIs(STAY, 11, 12);
    assert Lower(LEAVE[12]) == 'c' && Lower(KEEP_ALIVE_VALUE[0]) == 'k';
  }

  /** The server accepts what webbench sends exactly for GET and HEAD in HTTP/1.0, or in HTTP/1.1
      with keep-alive; then it sees the method, target and version webbench meant, and consumes
      exactly the request.  All else is a bad request. */
  lemma BenchIsUnderstood(c: Context, j: Job, more: string)
    requires c.check == CheckRequestLine
    requires j.http10 <= 2 && GoodUrl(j.url) && CleanUrl(j.url)
    ensures
      var p := Handle(c, BenchText(j) + more);
      && (p.ctx.request == GET_REQUEST <==>
            (j.m == BenchGet || j.m == BenchHead) && (Mode(j) == 1 || (Mode(j) == 2 && j.keepAlive)))
      && (p.ctx.request == GET_REQUEST ==>
            && p.ctx.verb == (if j.m == BenchGet then GET else HEAD) && p.ctx.uri == Target(j)
            && p.ctx.version == BenchVersion(Mode(j)) && p.unread == more)
      && (p.ctx.request != GET_REQUEST ==> p.ctx.request == BAD_REQUEST)
  {
    if Mode(j) == 0 {
      SimpleRequestRefused(c, Target(j), more);
    } else if j.m == BenchGet || j.m == BenchHead {
      BenchRoundTrip(c, j, more);
    } else {
      BenchRefused(c, j, more);
    }
  }

  /** The same in terms of the command line alone. */
  lemma BenchOptionsDecide(c: Context, j: Job, more: string)
    requires c.check == CheckRequestLine
    requires j.http10 <= 2 && GoodUrl(j.url) && CleanUrl(j.url)
    ensures
      var p := Handle(c, BenchText(j) + more);
      && (p.ctx.request == GET_REQUEST <==>
            match j.m
            case BenchGet => j.http10 == 1 || (j.http10 == 2 && j.keepAlive) || (j.http10 == 0 && j.reload && j.proxy)
            case BenchHead => j.http10 <= 1 || j.keepAlive
            case _ => false)
      && (p.ctx.request == GET_REQUEST ==>
            && p.ctx.version == (if j.http10 == 2 then HTTP_1_1 else HTTP_1_0)
            && (p.ctx.connection == KEEP_ALIVE <==> j.http10 == 2 || c.connection == KEEP_ALIVE))
  {
    BenchIsUnderstood(c, j, more);
    if (j.m == BenchGet || j.m == BenchHead) && (Mode(j) == 1 || (Mode(j) == 2 && j.keepAlive)) {
      BenchConnection(c, j, more);
    }
  }

  lemma BenchConnection(c: Context, j: Job, more: string)
    requires c.check == CheckRequestLine && (j.m == BenchGet || j.m == BenchHead)
    requires j.http10 <= 2 && GoodUrl(j.url) && CleanUrl(j.url)
    requires Mode(j) == 1 || (Mode(j) == 2 && j.keepAlive)
    ensures
      Handle(c, BenchText(j) + more).ctx.connection == if Mode(j) == 2 then KEEP_ALIVE else c.connection
  {
    var verb := if j.m == BenchGet then GET else HEAD;
    BenchHeaderTexts(j);
    BenchHeadersAcceptable(j);
    assert BenchMethodText(j.m) == MethodText(verb);
    RequestRoundTrip(c, verb, Target(j), BenchVersion(Mode(j)), BenchHeaders(j), more);
    BenchAsks(j, c.connection);
  }

  lemma BenchAsks(j: Job, default: Connection)
    requires GoodUrl(j.url) && (Mode(j) == 1 || (Mode(j) == 2 && j.keepAlive))
    ensures AskedConnection(BenchHeaders(j), default) == if Mode(j) == 2 then KEEP_ALIVE else default
  {
    OtherHeaders(Host(j.url));
    ConnectionHeaders();
    var hs := BenchHeaders(j);
    if Mode(j) == 2 {
      assert hs[|hs| - 1] == STAY;
    } else {
      assert forall h :: h in hs ==> !IsKeepAliveHeader(h);
    }
  }

  // ------------------------------------------------------------ lines of a text

  /** The complete lines of a text, each with its CR LF. */
  function SplitLines(u: string): seq<string>
    decreases |u|
  {
    if FirstCrlf(u) < |u| then [LineOf(u)] + SplitLines(AfterLine(u)) else []
  }

  lemma FirstLineSplits(t: string, rest: string)
    requires NoCr(t)
    ensures SplitLines(t + (CRLF + rest)) == [t + CRLF] + SplitLines(rest)
  {
    var u := t + (CRLF + rest);
    assert u[|t|] == '\r' && u[|t| + 1] == '\n';
    assert forall k :: 0 <= k < |t| ==> u[k] == t[k];
    LineFound(u, |t|);
    FirstCrlfUnique(u, FirstCrlf(u), |t|);
    assert u[..|t| + 2] == t + CRLF && u[|t| + 2..] == rest;
  }

  function Ended(hs: seq<string>): seq<string> {
    if hs == [] then [] else [hs[0] + CRLF] + Ended(hs[1..])
  }

  lemma {:induction false} BlockSplits(hs: seq<string>)
    requires forall h :: h in hs ==> NoCr(h)
    ensures SplitLines(HeaderBlock(hs)) == Ended(hs) + [CRLF]
    decreases |hs|
  {
    if hs == [] {
      assert "" + (CRLF + "") == CRLF && "" + CRLF == CRLF;
      FirstLineSplits("", "");
      assert FirstCrlf("") == 0 && SplitLines("") == [];
      assert [CRLF] + [] == [] + [CRLF];
    } else {
      BlockSplits(hs[1..]);
      FirstLineSplits(hs[0], HeaderBlock(hs[1..]));
    }
  }

  /** How many lines start with `prefix`. */
  function LinesWith(ls: seq<string>, prefix: string): nat {
    if ls == [] then 0 else (if prefix <= ls[0] then 1 else 0) + LinesWith(ls[1..], prefix)
  }

  lemma {:induction false} LinesWithAppend(a: seq<string>, b: seq<string>, prefix: string)
    ensures LinesWith(a + b, prefix) == LinesWith(a, prefix) + LinesWith(b, prefix)
    decreases |a|
  {
    if a == [] {
      assert a + b == b;
    } else {
      LinesWithAppend(a[1..], b, prefix);
      assert (a + b)[1..] == a[1..] + b;
    }
  }

  lemma {:induction false} EndedAppend(a: seq<string>, b: seq<string>)
    ensures Ended(a + b) == Ended(a) + Ended(b)
    decreases |a|
  {
    if a == [] {
      assert a + b == b;
    } else {
      EndedAppend(a[1..], b);
      assert (a + b)[1..] == a[1..] + b;
    }
  }

  /** A request sent directly carries exactly one Host line, with the URL's host; one sent to a proxy
      carries none.  The first line is the request line, the last one is empty. */
  lemma OneHostLine(j: Job)
    requires GoodUrl(j.url) && CleanUrl(j.url) && 0 < Mode(j) <= 2
    ensures
      var ls := SplitLines(BenchText(j));
      && LinesWith(ls, "Host: ") == (if j.proxy then 0 else 1)
      && (!j.proxy ==> ("Host: " + Host(j.url) + "\r\n") in ls)
      && |ls| >= 2 && ls[|ls| - 1] == "\r\n"
      && ls == [BenchMethodText(j.m) + " " + Target(j) + (" " + VersionText(BenchVersion(Mode(j)))) + "\r\n"]
             + Ended(["User-Agent: WebBench 1.5"]
                     + (if j.proxy then [] else ["Host: " + Host(j.url)])
                     + (if j.reload && j.proxy then ["Pragma: no-cache"] else [])
                     + (if Mode(j) <= 1 then []
                        else [if j.keepAlive then "Connection: Keep-Alive" else "Connection: close"]))
             + ["\r\n"]
  {
    LinesOfText(j);
    HostsAmongHeaders(j);
    HostsCounted(FirstLine(j), BenchHeaders(j), j);
    HeadersSpelled(j);
  }

  function FirstLine(j: Job): string
    requires GoodUrl(j.url)
  {
    BenchMethodText(j.m) + " " + Target(j) + (" " + VersionText(BenchVersion(Mode(j)))) + CRLF
  }

  lemma HeadersSpelled(j: Job)
    requires GoodUrl(j.url)
    ensures BenchHeaders(j) ==
      ["User-Agent: WebBench 1.5"]
      + (if j.proxy then [] else ["Host: " + Host(j.url)])
      + (if j.reload && j.proxy then ["Pragma: no-cache"] else [])
      + (if Mode(j) <= 1 then [] else [if j.keepAlive then "Connection: Keep-Alive" else "Connection: close"])
  {
  }

  lemma LinesOfText(j: Job)
    requires GoodUrl(j.url) && CleanUrl(j.url) && 0 < Mode(j) <= 2
    ensures SplitLines(BenchText(j)) == [FirstLine(j)] + Ended(BenchHeaders(j)) + [CRLF]
  {
    var m, v := BenchMethodText(j.m), VersionText(BenchVersion(Mode(j)));
    BenchLineNoCr(j);
    BenchHeaderTexts(j);
    LineReassociates(m, Target(j), v);
    FirstLineSplits(RequestLine(m, Target(j), v), HeaderBlock(BenchHeaders(j)));
    BlockSplits(BenchHeaders(j));
  }

  lemma HostsCounted(first: string, hs: seq<string>, j: Job)
    requires GoodUrl(j.url) && first == FirstLine(j)
    ensures LinesWith([first] + Ended(hs) + [CRLF], HOST) == LinesWith(Ended(hs), HOST)
  {
    NoHostInLine(BenchMethodText(j.m), Target(j), VersionText(BenchVersion(Mode(j))), j.m);
    LineReassociates(BenchMethodText(j.m), Target(j), VersionText(BenchVersion(Mode(j))));
    LinesWithAppend([first] + Ended(hs), [CRLF], HOST);
    LinesWithAppend([first], Ended(hs), HOST);
    assert [first][1..] == [] && [CRLF][1..] == [];
  }

  lemma BenchLineNoCr(j: Job)
    requires GoodUrl(j.url) && CleanUrl(j.url)
    ensures NoCr(RequestLine(BenchMethodText(j.m), Target(j), VersionText(BenchVersion(Mode(j)))))
  {
    var vt := VersionText(BenchVersion(Mode(j)));
    NoCrAppend(" ", vt);
    NoCrAppend(Target(j), " " + vt);
    NoCrAppend(" ", Target(j) + (" " + vt));
    NoCrAppend(BenchMethodText(j.m), " " + (Target(j) + (" " + vt)));
  }

  lemma NoHostInLine(m: string, u: string, v: string, b: BenchMethod)
    requires m == BenchMethodText(b)
    ensures !(HOST <= RequestLine(m, u, v) + CRLF) && !(HOST <= CRLF)
  {
    assert HOST[0] == 'H' && HOST[1] == 'o' && CRLF[0] == '\r';
    assert (RequestLine(m, u, v) + CRLF)[0] == m[0] && (RequestLine(m, u, v) + CRLF)[1] == m[1];
  }

  lemma OneEnded(h: string)
    ensures Ended([h]) == [h + CRLF] && LinesWith([h + CRLF], HOST) == if HOST <= h + CRLF then 1 else 0
  {
    assert [h][1..] == [] && [h + CRLF][1..] == [];
  }

  lemma NoHostInOthers()
    ensures !(HOST <= USER_AGENT + CRLF) && !(HOST <= PRAGMA + CRLF)
    ensures !(HOST <= STAY + CRLF) && !(HOST <= LEAVE + CRLF)
  {
    assert HOST[0] == 'H' && USER_AGENT[0] == 'U' && PRAGMA[0] == 'P' && STAY[0] == 'C' && LEAVE[0] == 'C';
    assert (USER_AGENT + CRLF)[0] == 'U' && (PRAGMA + CRLF)[0] == 'P';
    assert (STAY + CRLF)[0] == 'C' && (LEAVE + CRLF)[0] == 'C';
  }

  lemma HostIsHost(host: string)
    ensures HOST <= HOST + host + CRLF
  {
    assert (HOST + host + CRLF)[..|HOST|] == HOST;
  }

  lemma HostsAmongHeaders(j: Job)
    requires GoodUrl(j.url)
    ensures LinesWith(Ended(BenchHeaders(j)), HOST) == if j.proxy then 0 else 1
    ensures !j.proxy ==> (HOST + Host(j.url) + CRLF) in Ended(BenchHeaders(j))
  {
    var a, b := [USER_AGENT], if j.proxy then [] else [HOST + Host(j.url)];
    var c := if j.reload && j.proxy then [PRAGMA] else [];
    var d := if Mode(j) <= 1 then [] else if j.keepAlive then [STAY] else [LEAVE];
    NoHostInOthers();
    HostIsHost(Host(j.url));
    OneEnded(USER_AGENT);
    OneEnded(HOST + Host(j.url));
    OneEnded(PRAGMA);
    OneEnded(STAY);
    OneEnded(LEAVE);
    EndedAppend(a, b);
    EndedAppend(a + b, c);
    EndedAppend(a + b + c, d);
    LinesWithAppend(Ended(a), Ended(b), HOST);
    LinesWithAppend(Ended(a + b), Ended(c), HOST);
    LinesWithAppend(Ended(a + b + c), Ended(d), HOST);
  }

  lemma BenchRoundTrip(c: Context, j: Job, more: string)
    requires c.check == CheckRequestLine && (j.m == BenchGet || j.m == BenchHead)
    requires 1 <= Mode(j) <= 2 && GoodUrl(j.url) && CleanUrl(j.url)
    ensures
      var p := Handle(c, BenchText(j) + more);
      if Mode(j) == 1 || j.keepAlive
      then p.ctx.request == GET_REQUEST && p.ctx.verb == (if j.m == BenchGet then GET else HEAD)
        && p.ctx.uri == Target(j) && p.ctx.version == BenchVersion(Mode(j)) && p.unread == more
      else p.ctx.request == BAD_REQUEST
  {
    var verb := if j.m == BenchGet then GET else HEAD;
    BenchHeaderTexts(j);
    BenchHeadersAcceptable(j);
    assert BenchMethodText(j.m) == MethodText(verb);
    RequestRoundTrip(c, verb, Target(j), BenchVersion(Mode(j)), BenchHeaders(j), more);
  }

  lemma BenchRefused(c: Context, j: Job, more: string)
    requires c.check == CheckRequestLine && (j.m == BenchOptions || j.m == BenchTrace)
    requires GoodUrl(j.url) && CleanUrl(j.url) && Mode(j) > 0
    ensures Handle(c, BenchText(j) + more).ctx.request == BAD_REQUEST
  {
    var vt := VersionText(BenchVersion(Mode(j)));
    var block := HeaderBlock(BenchHeaders(j));
    OtherTexts(j.m, BenchVersion(Mode(j)));
    OtherMethodsRefused(c, BenchMethodText(j.m), Target(j), vt, block + more);
    AppendMore(RequestLine(BenchMethodText(j.m), Target(j), vt), block, more);
  }

  lemma OtherTexts(m: BenchMethod, v: Version)
    requires m == BenchOptions || m == BenchTrace
    ensures IsToken(BenchMethodText(m)) && NoCr(BenchMethodText(m)) && NoCr(VersionText(v))
    ensures BenchMethodText(m) != "GET" && BenchMethodText(m) != "HEAD"
  {
  }

  /** In HTTP/0.9 mode no version is printed and the server refuses the request. */
  lemma SimpleRequestRefused(c: Context, path: string, more: string)
    requires c.check == CheckRequestLine
    requires IsToken(path) && NoCr(path)
    ensures Handle(c, BenchMethodText(BenchGet) + " " + path + CRLF + more).ctx.request == BAD_REQUEST
  {
    var m := BenchMethodText(BenchGet);
    var t := m + (" " + path);
    SimpleText(path, more);
    NoVersionWord(m, path);
    var d := c.(line := t + ['\0', '\0']);
    FetchLine(t, more);
    HandleIsResume(c, t + (CRLF + more));
    NoVersionNoRequest(d);
  }

  lemma SimpleText(path: string, more: string)
    requires NoCr(path)
    ensures NoCr("GET" + (" " + path))
    ensures "GET" + " " + path + CRLF + more == ("GET" + (" " + path)) + (CRLF + more)
  {
  }

  lemma NoVersionNoRequest(c: Context)
    requires WordsOf(c.line).version == ""
    ensures ParseRequestLineSpec(c).request == BAD_REQUEST
  {
    var w := WordsOf(c.line);
    assert VersionOf(w.version) == None;
    NoVersionRefused(c, MethodOf(w.verb), w.uri);
  }

  lemma NoVersionRefused(c: Context, m: Option<Method>, u: string)
    ensures Verdict(c, m, u, None).request == BAD_REQUEST
  {
  }

  lemma NoVersionWord(m: string, u: string)
    requires IsToken(m) && IsToken(u)
    ensures WordsOf(m + (" " + u) + ['\0', '\0']).version == ""
  {
    var nuls := ['\0', '\0'];
    var rest := u + nuls;
    SpaceThen(rest);
    TokenThen(m, " " + rest);
    TokenThen(u, nuls);
    NulsHaveNoWord();
    NoVersionText(m, u);
  }

  lemma SpaceThen(rest: string)
    requires rest != "" && rest[0] != ' '
    ensures SkipSpaces(" " + rest) == rest
  {
    assert Spaces(1) == " ";
    SpacesThen(1, rest);
  }

  lemma NulsHaveNoWord()
    ensures WordOf(SkipSpaces("\0\0")) == ""
  {
    SpacesEndIs("\0\0", 0, 0);
    TokenEndIs("\0\0", 0, 0);
  }

  lemma NoVersionText(m: string, u: string)
    ensures m + (" " + u) + ['\0', '\0'] == m + (" " + (u + ['\0', '\0']))
  {
  }
}
