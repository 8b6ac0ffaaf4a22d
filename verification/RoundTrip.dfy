/** Printed requests parse back: section 3 of RFC 9112 as the server reads it. */
module RoundTrip {
  import opened Buffers
  import opened Http

  const CRLF := "\r\n"

  predicate NoCr(s: string) { forall k :: 0 <= k < |s| ==> s[k] != '\r' }
  predicate NoNul(s: string) { forall k :: 0 <= k < |s| ==> s[k] != '\0' }

  /** What may stand on a header line: something without CR that does not start with NUL. */
  predicate HeaderText(h: string) { h != "" && h[0] != '\0' && NoCr(h) }

  /** A header the server accepts: any but a Connection header with another value than Keep-Alive. */
  predicate Acceptable(h: string) { IsConnectionHeader(h) ==> IsKeepAliveHeader(h) }

  function HeaderBlock(hs: seq<string>): string {
    if hs == [] then CRLF else hs[0] + (CRLF + HeaderBlock(hs[1..]))
  }

  function RequestLine(m: string, u: string, v: string): string { m + (" " + (u + (" " + v))) }

  function RequestText(m: Method, u: string, v: Version, hs: seq<string>): string {
    RequestLine(MethodText(m), u, VersionText(v)) + (CRLF + HeaderBlock(hs))
  }

  function AskedConnection(hs: seq<string>, default: Connection): Connection {
    if exists i :: 0 <= i < |hs| && IsKeepAliveHeader(hs[i]) then KEEP_ALIVE else default
  }

  /** A CR-free text followed by CR LF is fetched as one line. */
  lemma FetchLine(t: string, rest: string)
    requires NoCr(t)
    ensures
      var u := t + (CRLF + rest);
      StatusOf(u) == LINE_OK && LineText(LineOf(u)) == t + ['\0', '\0'] && AfterLine(u) == rest
  {
    var u := t + (CRLF + rest);
    ParseLineExact(u);
    assert u[|t|] == '\r' && u[|t| + 1] == '\n';
    assert forall k :: 0 <= k < |t| ==> u[k] == t[k];
    assert FirstCr(u) == |t|;
    assert u[..|t|] == t;
    assert u[|t| + 2..] == rest;
  }

  lemma MatchIgnoresNuls(s: string, i: nat, pat: string)
    requires i <= |s| && (forall k :: 0 <= k < |pat| ==> Lower(pat[k]) != '\0')
    ensures MatchesIgnoringCase(s + ['\0', '\0'], i, pat) == MatchesIgnoringCase(s, i, pat)
  {
    var t := s + ['\0', '\0'];
    if |s| < i + |pat| <= |t| {
      var k := |s| - i;
      assert Lower(t[i + k]) != Lower(pat[k]);
    }
    assert forall k :: 0 <= k < |s| ==> t[k] == s[k];
  }

  lemma HeaderIgnoresNuls(h: string)
    ensures IsConnectionHeader(h + ['\0', '\0']) == IsConnectionHeader(h)
    ensures IsKeepAliveHeader(h + ['\0', '\0']) == IsKeepAliveHeader(h)
  {
    var t := h + ['\0', '\0'];
    MatchIgnoresNuls(h, 0, CONNECTION_FIELD);
    if IsConnectionHeader(h) {
      var j := SpacesEnd(h, 11);
      assert forall k :: 0 <= k < |h| ==> t[k] == h[k];
      assert At(t, j) == At(h, j);
      SpacesEndIs(t, 11, j);
      MatchIgnoresNuls(h, j, KEEP_ALIVE_VALUE);
    }
  }

  /** One header line: consumed and remembered, or the whole request is refused. */
  lemma HeaderLineStep(c: Context, h: string, rest: string)
    requires c.check == CheckHeader && HeaderText(h)
    ensures
      var u := h + (CRLF + rest);
      var d := c.(line := h + ['\0', '\0'], request := NO_REQUEST, connection := AskedConnection([h], c.connection));
      if Acceptable(h) then Handle(c, u) == Handle(d, rest)
      else Handle(c, u) == Parse(c.(line := h + ['\0', '\0'], request := BAD_REQUEST), rest)
  {
    FetchLine(h, rest);
    HeaderIgnoresNuls(h);
    var e := c.(line := h + ['\0', '\0']);
    assert e.line[0] == h[0];
    assert [h][0] == h;
    if Acceptable(h) {
      assert ParseMessageHeaderSpec(e)
          == c.(line := h + ['\0', '\0'], request := NO_REQUEST, connection := AskedConnection([h], c.connection));
    }
  }

  /** An empty line ends the headers, and so does one that starts with NUL, whatever follows on it. */
  lemma NulLineEndsHeaders(c: Context, t: string, rest: string)
    requires c.check == CheckHeader && NoCr(t) && (t == "" || t[0] == '\0')
    ensures Handle(c, t + (CRLF + rest))
         == Parse(c.(line := t + ['\0', '\0'], check := CheckEnd, request := GET_REQUEST), rest)
  {
    FetchLine(t, rest);
    assert (t + ['\0', '\0'])[0] == '\0';
  }

  lemma EmptyLineEndsHeaders(c: Context, rest: string)
    requires c.check == CheckHeader
    ensures Handle(c, CRLF + rest) == Parse(c.(line := "\0\0", check := CheckEnd, request := GET_REQUEST), rest)
  {
    NulLineEndsHeaders(c, "", rest);
    assert "" + (CRLF + rest) == CRLF + rest;
    assert "" + ['\0', '\0'] == "\0\0";
  }

  lemma AskedConnectionCons(hs: seq<string>, default: Connection)
    requires hs != []
    ensures AskedConnection(hs, default) == AskedConnection(hs[1..], AskedConnection([hs[0]], default))
  {
    assert [hs[0]][0] == hs[0];
    if i :| 0 <= i < |hs| && IsKeepAliveHeader(hs[i]) {
      if i > 0 { assert hs[1..][i - 1] == hs[i]; }
    }
    if i :| 0 <= i < |hs[1..]| && IsKeepAliveHeader(hs[1..][i]) {
      assert hs[i + 1] == hs[1..][i];
    }
  }

  /** A header block is accepted exactly when each header is, and consumed to its last byte. */
  lemma {:induction false} HeaderBlockParses(c: Context, hs: seq<string>, more: string)
    requires c.check == CheckHeader
    requires forall i :: 0 <= i < |hs| ==> HeaderText(hs[i])
    ensures
      var p := Handle(c, HeaderBlock(hs) + more);
      if forall i :: 0 <= i < |hs| ==> Acceptable(hs[i])
      then p == Parse(c.(line := "\0\0", check := CheckEnd, request := GET_REQUEST,
                         connection := AskedConnection(hs, c.connection)), more)
      else
        && p.ctx.request == BAD_REQUEST
        && ((forall i :: 0 <= i < |hs| ==> !IsKeepAliveHeader(hs[i])) ==> p.ctx.connection == c.connection)
    decreases |hs|
  {
    if hs == [] {
      EmptyLineEndsHeaders(c, more);
    } else {
      var h, rest := hs[0], HeaderBlock(hs[1..]) + more;
      assert HeaderBlock(hs) + more == h + (CRLF + rest);
      HeaderLineStep(c, h, rest);
      if Acceptable(h) {
        AskedConnectionCons(hs, c.connection);
        var d := c.(line := h + ['\0', '\0'], request := NO_REQUEST, connection := AskedConnection([h], c.connection));
        HeaderBlockParses(d, hs[1..], more);
        assert (forall i :: 0 <= i < |hs| ==> Acceptable(hs[i]))
          <==> (forall i :: 0 <= i < |hs[1..]| ==> Acceptable(hs[1..][i])) by {
          assert forall i :: 0 < i < |hs| ==> hs[i] == hs[1..][i - 1];
        }
      }
    }
  }

  lemma PrintedRequestLine(m: Method, u: string, v: Version)
    requires IsToken(u)
    ensures RequestLineShape(RequestLine(MethodText(m), u, VersionText(v)) + ['\0', '\0'], m, u, v)
  {
    var mt, vt, tail := MethodText(m), VersionText(v), ['\0', '\0'];
    assert Spaces(1) == " ";
    assert RequestLine(mt, u, vt) + tail == Line(mt, 1, u, 1, vt, tail);
  }

  lemma RequestLineNoCr(m: Method, u: string, v: Version)
    requires NoCr(u)
    ensures NoCr(RequestLine(MethodText(m), u, VersionText(v)))
  {
    var vt := VersionText(v);
    NoCrAppend(" ", vt);
    NoCrAppend(u, " " + vt);
    NoCrAppend(" ", u + (" " + vt));
    NoCrAppend(MethodText(m), " " + (u + (" " + vt)));
  }

  lemma NoCrAppend(a: string, b: string)
    requires NoCr(a) && NoCr(b)
    ensures NoCr(a + b)
  {
    assert forall k :: 0 <= k < |a + b| ==> (a + b)[k] == if k < |a| then a[k] else b[k - |a|];
  }

  lemma RequestLineStep(c: Context, t: string, rest: string, e: Context)
    requires c.check == CheckRequestLine && NoCr(t)
    requires e == ParseRequestLineSpec(c.(line := t + ['\0', '\0']))
    requires e.check == CheckHeader && e.request == NO_REQUEST
    ensures Handle(c, t + (CRLF + rest)) == Handle(e, rest)
  {
    FetchLine(t, rest);
    HandleIsResume(c, t + (CRLF + rest));
  }

  /** Printer and parser: a printed request with a URI free of space, CR and NUL is accepted with
      its own method, URI, version and connection, and exactly its bytes are consumed, when all its
      headers are acceptable; otherwise it is a bad request. */
  lemma RequestRoundTrip(c: Context, m: Method, u: string, v: Version, hs: seq<string>, more: string)
    requires c.check == CheckRequestLine
    requires IsToken(u) && NoCr(u)
    requires forall i :: 0 <= i < |hs| ==> HeaderText(hs[i])
    ensures
      var p := Handle(c, RequestText(m, u, v, hs) + more);
      if forall i :: 0 <= i < |hs| ==> Acceptable(hs[i])
      then p == Parse(Context(m, v, AskedConnection(hs, c.connection), GET_REQUEST, CheckEnd, u, "\0\0"), more)
      else
        && p.ctx.request == BAD_REQUEST
        && ((forall i :: 0 <= i < |hs| ==> !IsKeepAliveHeader(hs[i])) ==> p.ctx.connection == c.connection)
  {
    var t := RequestLine(MethodText(m), u, VersionText(v));
    var rest := HeaderBlock(hs) + more;
    RequestLineNoCr(m, u, v);
    AppendMore(t, HeaderBlock(hs), more);
    var d := c.(line := t + ['\0', '\0']);
    PrintedRequestLine(m, u, v);
    RequestLineComplete(d, m, u, v);
    var e := d.(verb := m, uri := u, version := v, check := CheckHeader, request := NO_REQUEST);
    RequestLineStep(c, t, rest, e);
    HeaderBlockParses(e, hs, more);
  }

  /** A request line with another method is refused, whatever follows. */
  lemma OtherMethodsRefused(c: Context, m: string, u: string, v: string, rest: string)
    requires c.check == CheckRequestLine
    requires IsToken(m) && m != "GET" && m != "HEAD"
    requires NoCr(m) && NoCr(u) && NoCr(v)
    ensures Handle(c, RequestLine(m, u, v) + (CRLF + rest)).ctx.request == BAD_REQUEST
  {
    var t := RequestLine(m, u, v);
    FetchLine(t, rest);
    var tail := " " + (u + (" " + v)) + ['\0', '\0'];
    assert t + ['\0', '\0'] == m + tail;
    TokenThen(m, tail);
  }

  lemma AppendMore(t: string, block: string, more: string)
    ensures t + (CRLF + block) + more == t + (CRLF + (block + more))
  {
  }
}
