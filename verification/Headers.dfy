/** Which header lines mean what, said without the parser's own predicates: field names and the value
    Keep-Alive match in any case of their letters, and nothing else does (HttpContext.cpp,
    parseMessageHeader). */
module Headers {
  import opened Buffers
  import opened Http
  import opened RoundTrip

  const UPPER := "ABCDEFGHIJKLMNOPQRSTUVWXYZ"
  const LOWER := "abcdefghijklmnopqrstuvwxyz"

  /** One letter in two cases. */
  predicate LetterPair(a: char, b: char) { exists i :: 0 <= i < 26 && a == UPPER[i] && b == LOWER[i] }

  predicate SameLetter(a: char, b: char) { a == b || LetterPair(a, b) || LetterPair(b, a) }

  /** Two texts that differ at most in the case of ASCII letters. */
  predicate SameText(s: string, t: string) {
    |s| == |t| && forall k :: 0 <= k < |s| ==> SameLetter(s[k], t[k])
  }

  lemma UpperAt(i: int)
    requires 0 <= i < 26
    ensures UPPER[i] as int == 'A' as int + i && LOWER[i] as int == 'a' as int + i
  {
  }

  lemma LetterPairIff(a: char, b: char)
    ensures LetterPair(a, b) <==> 'A' <= a <= 'Z' && b as int == a as int + 32
  {
    if 'A' <= a <= 'Z' && b as int == a as int + 32 {
      UpperAt(a as int - 'A' as int);
    }
    if i :| 0 <= i < 26 && a == UPPER[i] && b == LOWER[i] {
      UpperAt(i);
    }
  }

  lemma SameLetterIff(a: char, b: char)
    ensures SameLetter(a, b) <==> Lower(a) == Lower(b)
  {
    LetterPairIff(a, b);
    LetterPairIff(b, a);
  }

  lemma MatchesIff(s: string, i: nat, pat: string)
    ensures MatchesIgnoringCase(s, i, pat) <==> i + |pat| <= |s| && SameText(s[i..i + |pat|], pat)
  {
    if i + |pat| <= |s| {
      forall k | 0 <= k < |pat|
        ensures SameLetter(s[i..i + |pat|][k], pat[k]) <==> Lower(s[i + k]) == Lower(pat[k])
      {
        SameLetterIff(s[i + k], pat[k]);
      }
    }
  }

  // ------------------------------------------------------- what a header means

  /** The field name, in any case, with its colon. */
  predicate NamesConnection(h: string) { |h| >= 11 && SameText(h[..11], "Connection:") }

  /** After `n` spaces the value Keep-Alive, in any case, then anything. */
  predicate SaysKeepAlive(h: string, n: nat) {
    && 11 + n + 10 <= |h|
    && (forall k :: 11 <= k < 11 + n ==> h[k] == ' ')
    && SameText(h[11 + n..21 + n], "Keep-Alive")
  }

  lemma ConnectionHeaderIff(h: string)
    ensures IsConnectionHeader(h) <==> NamesConnection(h)
  {
    MatchesIff(h, 0, CONNECTION_FIELD);
  }

  lemma KeepAliveHeaderIff(h: string)
    ensures IsKeepAliveHeader(h) <==> NamesConnection(h) && exists n: nat :: SaysKeepAlive(h, n)
  {
    ConnectionHeaderIff(h);
    if IsKeepAliveHeader(h) {
      KeepAliveSays(h);
    }
    if NamesConnection(h) {
      forall n: nat | SaysKeepAlive(h, n)
        ensures IsKeepAliveHeader(h)
      {
        SayingKeepsAlive(h, n);
      }
    }
  }

  lemma KeepAliveSays(h: string)
    requires IsKeepAliveHeader(h)
    ensures SaysKeepAlive(h, SpacesEnd(h, 11) - 11)
  {
    var j := SpacesEnd(h, 11);
    MatchesIff(h, j, KEEP_ALIVE_VALUE);
    SpacesBeforeValue(h, j);
  }

  lemma SayingKeepsAlive(h: string, n: nat)
    requires IsConnectionHeader(h) && SaysKeepAlive(h, n)
    ensures IsKeepAliveHeader(h)
  {
    ValueEndsSpaces(h, n);
    MatchesIff(h, 11 + n, KEEP_ALIVE_VALUE);
  }

  lemma SpacesBeforeValue(h: string, j: nat)
    requires 11 <= j && j + 10 <= |h| && SameText(h[j..j + 10], "Keep-Alive")
    requires forall k :: 11 <= k < j ==> h[k] == ' '
    ensures SaysKeepAlive(h, j - 11)
  {
  }

  lemma ValueEndsSpaces(h: string, n: nat)
    requires |h| >= 11 && SaysKeepAlive(h, n)
    ensures SpacesEnd(h, 11) == 11 + n
  {
    ValueStart(h[11 + n..21 + n]);
    assert h[11 + n..21 + n][0] == h[11 + n];
    SpacesEndIs(h, 11, 11 + n);
  }

  lemma ValueStart(v: string)
    requires SameText(v, "Keep-Alive")
    ensures v != "" && v[0] != ' '
  {
    assert SameLetter(v[0], "Keep-Alive"[0]);
    SameLetterIff(v[0], 'K');
  }

  /** A header line: one that names Connection is remembered if it says Keep-Alive and refused, with
      nothing remembered, if it does not; any other is passed over. */
  lemma HeaderMeans(c: Context, h: string, rest: string)
    requires c.check == CheckHeader && HeaderText(h)
    ensures
      var p := Handle(c, h + (CRLF + rest));
      if !NamesConnection(h) then p == Handle(c, rest)
      else if exists n: nat :: SaysKeepAlive(h, n) then p == Handle(c.(connection := KEEP_ALIVE), rest)
      else p.ctx.request == BAD_REQUEST && p.ctx.connection == c.connection && p.unread == rest
  {
    ConnectionHeaderIff(h);
    KeepAliveHeaderIff(h);
    AskedOne(h, c.connection);
    HeaderLineStep(c, h, rest);
    if Acceptable(h) {
      LineIsForgotten(c, h, AskedConnection([h], c.connection), rest);
    }
  }

  lemma AskedOne(h: string, default: Connection)
    ensures AskedConnection([h], default) == if IsKeepAliveHeader(h) then KEEP_ALIVE else default
  {
    assert [h][0] == h;
  }

  lemma LineIsForgotten(c: Context, h: string, asked: Connection, rest: string)
    requires c.check == CheckHeader
    ensures Handle(c.(line := h + ['\0', '\0'], request := NO_REQUEST, connection := asked), rest)
         == Handle(c.(connection := asked), rest)
  {
    HandleForgets(c.(connection := asked), h + ['\0', '\0'], NO_REQUEST, rest);
  }

  /** Any case, any number of spaces and any tail: the connection is kept. */
  lemma AnyCaseKeepsAlive(c: Context, name: string, n: nat, value: string, tail: string, rest: string)
    requires c.check == CheckHeader
    requires SameText(name, "Connection:") && SameText(value, "Keep-Alive") && NoCr(tail)
    ensures
      var h := name + (Spaces(n) + (value + tail));
      Handle(c, h + (CRLF + rest)) == Handle(c.(connection := KEEP_ALIVE), rest)
  {
    var h := name + (Spaces(n) + (value + tail));
    assert h[..11] == name;
    assert h[11 + n..21 + n] == value;
    assert forall k :: 11 <= k < 11 + n ==> h[k] == Spaces(n)[k - 11];
    assert SaysKeepAlive(h, n);
    SameTextIsClean(name, "Connection:");
    SameTextIsClean(value, "Keep-Alive");
    NoCrAppend(value, tail);
    NoCrAppend(Spaces(n), value + tail);
    NoCrAppend(name, Spaces(n) + (value + tail));
    assert h[0] == name[0];
    HeaderMeans(c, h, rest);
  }

  lemma SameTextIsClean(s: string, t: string)
    requires SameText(s, t) && NoCr(t) && NoNul(t)
    ensures NoCr(s) && NoNul(s)
  {
    forall k | 0 <= k < |s|
      ensures s[k] != '\r' && s[k] != '\0'
    {
      SameLetterIff(s[k], t[k]);
      assert t[k] != '\r' && t[k] != '\0';
    }
  }

  /** Two header lines that differ only in the case of letters are accepted alike, decide alike about
      keeping the connection, and leave the same bytes unread. */
  lemma CaseDoesNotMatter(c: Context, h: string, g: string, rest: string)
    requires c.check == CheckHeader && HeaderText(h) && HeaderText(g) && SameText(h, g)
    ensures
      var p, q := Handle(c, h + (CRLF + rest)), Handle(c, g + (CRLF + rest));
      && p.ctx.request == q.ctx.request && p.ctx.connection == q.ctx.connection && p.unread == q.unread
  {
    HeaderMeans(c, h, rest);
    HeaderMeans(c, g, rest);
    SameMeaning(h, g);
    SameTextFlips(h, g);
    SameMeaning(g, h);
  }

  lemma SameTextFlips(s: string, t: string)
    requires SameText(s, t)
    ensures SameText(t, s)
  {
  }

  lemma SameTextTwice(s: string, t: string, pat: string)
    requires SameText(s, t) && SameText(t, pat)
    ensures SameText(s, pat)
  {
    forall k | 0 <= k < |s|
      ensures SameLetter(s[k], pat[k])
    {
      SameLetterIff(s[k], t[k]);
      SameLetterIff(t[k], pat[k]);
      SameLetterIff(s[k], pat[k]);
    }
  }

  /** The other case of a text has its meaning. */
  lemma SameMeaning(h: string, g: string)
    requires SameText(h, g)
    ensures NamesConnection(g) ==> NamesConnection(h)
    ensures forall n: nat :: SaysKeepAlive(g, n) ==> SaysKeepAlive(h, n)
  {
    if NamesConnection(g) {
      assert SameText(h[..11], g[..11]);
      SameTextTwice(h[..11], g[..11], "Connection:");
    }
    forall n: nat | SaysKeepAlive(g, n)
      ensures SaysKeepAlive(h, n)
    {
      assert SameText(h[11 + n..21 + n], g[11 + n..21 + n]);
      SameTextTwice(h[11 + n..21 + n], g[11 + n..21 + n], "Keep-Alive");
      forall k | 11 <= k < 11 + n
        ensures h[k] == ' '
      {
        SameLetterIff(h[k], g[k]);
      }
    }
  }
}
