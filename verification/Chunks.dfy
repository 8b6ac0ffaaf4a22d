/** Requests arriving in pieces: no proper part of a printed request is taken for a request or refused,
    so however it is cut, it is understood when its last byte is there, and not before. */
module Chunks {
  import opened Buffers
  import opened Http
  import opened RoundTrip

  /** Less than a line: the parser waits, with all bytes unread. */
  lemma ShortOfLine(c: Context, t: string, n: nat)
    requires c.check != CheckEnd && NoCr(t) && n < |t + CRLF|
    ensures Handle(c, (t + CRLF)[..n]).ctx.request == NO_REQUEST
    ensures Handle(c, (t + CRLF)[..n]).ctx.check == c.check && Handle(c, (t + CRLF)[..n]).unread == (t + CRLF)[..n]
  {
    var u := (t + CRLF)[..n];
    assert forall k :: 0 <= k < |u| && k < |t| ==> u[k] == t[k];
    assert FirstCr(u) >= |u| - 1;
    ParseLineExact(u);
  }

  lemma CutBefore(t: string, rest: string, n: nat)
    requires n <= |t|
    ensures (t + rest)[..n] == t[..n]
  {
  }

  lemma CutBehind(t: string, rest: string, n: nat)
    requires |t| <= n <= |t + rest|
    ensures (t + rest)[..n] == t + rest[..n - |t|]
  {
  }

  lemma {:induction false} PartOfHeaders(c: Context, hs: seq<string>, n: nat)
    requires c.check == CheckHeader && n < |HeaderBlock(hs)|
    requires forall i :: 0 <= i < |hs| ==> HeaderText(hs[i]) && Acceptable(hs[i])
    ensures Handle(c, HeaderBlock(hs)[..n]).ctx.request == NO_REQUEST
    decreases |hs|
  {
    if hs == [] {
      assert "" + CRLF == CRLF;
      ShortOfLine(c, "", n);
    } else {
      var h, rest := hs[0], HeaderBlock(hs[1..]);
      assert HeaderBlock(hs) == (h + CRLF) + rest;
      if n < |h + CRLF| {
        CutBefore(h + CRLF, rest, n);
        ShortOfLine(c, h, n);
      } else {
        var m := n - |h + CRLF|;
        CutBehind(h + CRLF, rest, n);
        assert (h + CRLF) + rest[..m] == h + (CRLF + rest[..m]);
        HeaderLineStep(c, h, rest[..m]);
        var d := c.(line := h + ['\0', '\0'], request := NO_REQUEST, connection := AskedConnection([h], c.connection));
        PartOfHeaders(d, hs[1..], m);
      }
    }
  }

  /** Every proper part of an acceptable printed request, however little is missing, is incomplete. */
  lemma PartOfRequest(c: Context, m: Method, u: string, v: Version, hs: seq<string>, n: nat)
    requires c.check == CheckRequestLine && IsToken(u) && NoCr(u)
    requires forall i :: 0 <= i < |hs| ==> HeaderText(hs[i]) && Acceptable(hs[i])
    requires n < |RequestText(m, u, v, hs)|
    ensures Handle(c, RequestText(m, u, v, hs)[..n]).ctx.request == NO_REQUEST
  {
    var t, block := RequestLine(MethodText(m), u, VersionText(v)), HeaderBlock(hs);
    RequestLineNoCr(m, u, v);
    assert RequestText(m, u, v, hs) == (t + CRLF) + block;
    if n < |t + CRLF| {
      CutBefore(t + CRLF, block, n);
      ShortOfLine(c, t, n);
    } else {
      var k := n - |t + CRLF|;
      CutBehind(t + CRLF, block, n);
      assert (t + CRLF) + block[..k] == t + (CRLF + block[..k]);
      var d := c.(line := t + ['\0', '\0']);
      PrintedRequestLine(m, u, v);
      RequestLineComplete(d, m, u, v);
      var e := d.(verb := m, uri := u, version := v, check := CheckHeader, request := NO_REQUEST);
      RequestLineStep(c, t, block[..k], e);
      PartOfHeaders(e, hs, k);
    }
  }

  /** Every proper part of `text` leaves the parser waiting. */
  ghost predicate WaitsForAll(p: Parse, text: string)
    requires p.ctx.check != CheckEnd
  {
    forall n: nat :: n < |text| ==> Handle(p.ctx, p.unread + text[..n]).ctx.request == NO_REQUEST
  }

  /** Part of it handled, the parser waits for the rest in the same way. */
  lemma WaitsForRest(p: Parse, text: string, a: string, b: string)
    requires p.ctx.check != CheckEnd && WaitsForAll(p, text) && text == a + b && b != ""
    ensures
      var q := Handle(p.ctx, p.unread + a);
      q.ctx.request == NO_REQUEST && q.ctx.check != CheckEnd && WaitsForAll(q, b)
  {
    var u := p.unread + a;
    var q := Handle(p.ctx, u);
    CutBefore(a, b, |a|);
    assert text[..|a|] == a;
    HandleLeavesNoBodyState(p.ctx, u);
    forall n: nat | n < |b|
      ensures Handle(q.ctx, q.unread + b[..n]).ctx.request == NO_REQUEST
    {
      CutBehind(a, b, |a| + n);
      Associate(p.unread, a, b[..n]);
      IncrementalEqualsOneShot(p.ctx, u, b[..n]);
    }
  }

  lemma Associate(a: string, b: string, c: string)
    ensures (a + b) + c == a + (b + c)
  {
  }

  lemma {:induction false} PiecesAreIncomplete(p: Parse, chunks: seq<string>)
    requires p.ctx.check != CheckEnd && chunks != [] && chunks[|chunks| - 1] != ""
    requires WaitsForAll(p, Concat(chunks))
    ensures Incomplete(p, chunks)
    decreases |chunks|
  {
    if |chunks| >= 2 {
      LastIsThere(chunks[1..]);
      WaitsForRest(p, Concat(chunks), chunks[0], Concat(chunks[1..]));
      PiecesAreIncomplete(Handle(p.ctx, p.unread + chunks[0]), chunks[1..]);
    }
  }

  lemma {:induction false} LastIsThere(chunks: seq<string>)
    requires chunks != [] && chunks[|chunks| - 1] != ""
    ensures Concat(chunks) != ""
    decreases |chunks|
  {
    if |chunks| > 1 {
      LastIsThere(chunks[1..]);
    }
  }

  /** However a printed request is cut, every piece but the last leaves the parser waiting, and with the
      last it is accepted with its own method, URI, version and connection, to its last byte. */
  lemma ChunkedRequestIsUnderstood(c: Context, m: Method, u: string, v: Version, hs: seq<string>, chunks: seq<string>)
    requires c.check == CheckRequestLine && IsToken(u) && NoCr(u)
    requires forall i :: 0 <= i < |hs| ==> HeaderText(hs[i]) && Acceptable(hs[i])
    requires chunks != [] && chunks[|chunks| - 1] != "" && Concat(chunks) == RequestText(m, u, v, hs)
    ensures Incomplete(Parse(c, ""), chunks)
    ensures Feed(Parse(c, ""), chunks)
         == Parse(Context(m, v, AskedConnection(hs, c.connection), GET_REQUEST, CheckEnd, u, "\0\0"), "")
  {
    var p, text := Parse(c, ""), RequestText(m, u, v, hs);
    forall n: nat | n < |text|
      ensures Handle(p.ctx, p.unread + text[..n]).ctx.request == NO_REQUEST
    {
      PartOfRequest(c, m, u, v, hs, n);
      assert p.unread + text[..n] == text[..n];
    }
    PiecesAreIncomplete(p, chunks);
    AnyChunkingEqualsOneShot(p, chunks);
    RequestRoundTrip(c, m, u, v, hs, "");
    assert p.unread + Concat(chunks) == text == text + "";
  }

  // ------------------------------------------------------------------ refusals

  /** A CR that is followed by something else and one more byte is refused, and changes nothing else. */
  lemma LoneCrIsRefused(c: Context, u: string)
    requires c.check != CheckEnd && FirstCr(u) + 2 < |u| && u[FirstCr(u) + 1] != '\n'
    ensures
      var p := Handle(c, u);
      p.ctx.request == BAD_REQUEST && p.ctx.check == c.check && p.ctx.connection == c.connection
  {
    ParseLineExact(u);
  }

  /** A complete line is accepted as a request line exactly when it has the grammar's shape; otherwise
      only this line is consumed, and the parser still waits for a request line. */
  lemma OnlyTheGrammarPasses(c: Context, t: string, rest: string)
    requires c.check == CheckRequestLine && NoCr(t)
    ensures
      var p := Handle(c, t + (CRLF + rest));
      (forall m, u, v :: !RequestLineShape(t + ['\0', '\0'], m, u, v)) ==>
        && p.ctx.request == BAD_REQUEST && p.ctx.check == CheckRequestLine
        && p.ctx.connection == c.connection && p.unread == rest
    ensures forall m, u, v :: RequestLineShape(t + ['\0', '\0'], m, u, v) ==>
        Handle(c, t + (CRLF + rest)) ==
          Handle(c.(verb := m, uri := u, version := v, check := CheckHeader), rest)
  {
    var d := c.(line := t + ['\0', '\0']);
    if forall m, u, v :: !RequestLineShape(d.line, m, u, v) {
      ShapelessIsRefused(c, t, rest);
    }
    forall m, u, v | RequestLineShape(d.line, m, u, v)
      ensures Handle(c, t + (CRLF + rest)) == Handle(c.(verb := m, uri := u, version := v, check := CheckHeader), rest)
    {
      RequestLineComplete(d, m, u, v);
      var e := d.(verb := m, uri := u, version := v, check := CheckHeader, request := NO_REQUEST);
      RequestLineStep(c, t, rest, e);
      HandleForgets(c.(verb := m, uri := u, version := v, check := CheckHeader), d.line, NO_REQUEST, rest);
    }
  }

  lemma ShapelessIsRefused(c: Context, t: string, rest: string)
    requires c.check == CheckRequestLine && NoCr(t)
    requires forall m, u, v :: !RequestLineShape(t + ['\0', '\0'], m, u, v)
    ensures
      var p := Handle(c, t + (CRLF + rest));
      && p.ctx.request == BAD_REQUEST && p.ctx.check == CheckRequestLine
      && p.ctx.connection == c.connection && p.unread == rest
  {
    var d := c.(line := t + ['\0', '\0']);
    FetchLine(t, rest);
    if ParseRequestLineSpec(d).request != BAD_REQUEST {
      RequestLineSound(d);
    }
    HandleIsResume(c, t + (CRLF + rest));
  }
}
