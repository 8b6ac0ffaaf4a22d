/** The parser object of the source, proved against the functions of module Http. */
module HttpContexts {
  import opened Options
  import opened Buffers
  import opened Http

  lemma NulledText(s: string, i: nat)
    requires i + 1 < |s|
    ensures s[i := '\0'][i + 1 := '\0'] == s[..i] + (['\0', '\0'] + s[i + 2..])
  {
  }

  class HttpContext {
    var verb: Method
    var version: Version
    var connection: Connection
    var request: RequestState
    var check: CheckState
    var uri: string
    var line: string
    const input: Buffer
    const output: Buffer

    ghost predicate Valid()
      reads this, input, output
    {
      input != output && input.store != output.store && input.Valid() && output.Valid()
    }

    ghost function Value(): Context
      reads this
    {
      Context(verb, version, connection, request, check, uri, line)
    }

    constructor (input: Buffer, output: Buffer)
      requires input != output && input.store != output.store && input.Valid() && output.Valid()
      ensures Valid() && this.input == input && this.output == output
      ensures Value() == INITIAL
    {
      verb, version, connection := GET, HTTP_1_0, CLOSE;
      request, check := NO_REQUEST, CheckRequestLine;
      uri, line := "", "";
      this.input, this.output := input, output;
    }

    function IsKeepAlive(): bool
      reads this
    {
      connection == KEEP_ALIVE
    }

    method Reset()
      requires Valid()
      modifies this, input`readIndex, input`writeIndex
      ensures Valid()
      ensures Value() == ResetSpec(old(Value()))
      ensures input.Contents() == [] && output.Contents() == old(output.Contents())
    {
      verb := GET;
      version := HTTP_1_0;
      connection := KEEP_ALIVE;
      request := NO_REQUEST;
      check := CheckRequestLine;
      uri := "";
      line := "";
      input.RetrieveAll();
    }

    method ParseLine() returns (status: LineState)
      requires Valid()
      modifies this`line, input`readIndex
      ensures Valid()
      ensures status == StatusOf(old(input.Contents()))
      ensures Value() == old(Value()).(line := LineText(LineOf(old(input.Contents()))))
      ensures input.Contents() == AfterLine(old(input.Contents()))
      ensures output.Contents() == old(output.Contents())
    {
      line := input.GetAnHTTPLine();
      var i := 0;
      while i < |line|
        invariant 0 <= i <= |line|
        invariant line == LineOf(old(input.Contents()))
        invariant input.Contents() == AfterLine(old(input.Contents())) && Valid()
        invariant FirstInnerCr(line, i) == FirstInnerCr(line)
      {
        if line[i] == '\r' && i + 1 < |line| {
          if line[i + 1] == '\n' {
            NulledText(line, i);
            line := line[i := '\0'];
            line := line[i + 1 := '\0'];
            return LINE_OK;
          } else {
            return LINE_BAD;
          }
        }
        i := i + 1;
      }
      return LINE_OPEN;
    }

    /** while (m_new_line[end] is neither space nor NUL) ++end */
    method ScanToken(start: nat) returns (end: nat)
      requires start <= |line|
      ensures end == TokenEnd(line, start)
    {
      end := start;
      while At(line, end) != ' ' && At(line, end) != '\0'
        invariant start <= end <= |line|
        invariant TokenEnd(line, end) == TokenEnd(line, start)
        decreases |line| - end
      {
        end := end + 1;
      }
    }

    /** while (m_new_line[end] is a space) ++end */
    method ScanSpaces(start: nat) returns (end: nat)
      requires start <= |line|
      ensures end == SpacesEnd(line, start)
    {
      end := start;
      while At(line, end) == ' '
        invariant start <= end <= |line|
        invariant SpacesEnd(line, end) == SpacesEnd(line, start)
        decreases |line| - end
      {
        end := end + 1;
      }
    }

    /** The first word of the line. */
    method ScanVerb(ghost w: Words) returns (end: nat)
      requires w == WordsOf(line)
      ensures end <= |line| && line[..end] == w.verb && line[end..] == AfterWord(line)
    {
      end := ScanToken(0);
    }

    /** Skips spaces and scans a token. */
    method ScanWord(from: nat) returns (start: nat, end: nat)
      requires from <= |line|
      ensures start <= end <= |line|
      ensures line[start..] == SkipSpaces(line[from..])
      ensures line[start..end] == WordOf(line[start..])
      ensures line[end..] == AfterWord(line[start..])
    {
      start := ScanSpaces(from);
      end := ScanToken(start);
      CutSpaces(line, from, start);
      CutWord(line, start, end);
    }

    /** The second and the third word of the line. */
    method ScanRest(from: nat, ghost w: Words) returns (target: string, token: string)
      requires w == WordsOf(line) && from <= |line| && line[from..] == AfterWord(line)
      ensures target == w.uri && token == w.version
    {
      var start, end := ScanWord(from);
      target := line[start..end];
      start, end := ScanWord(end);
      token := line[start..end];
    }

    /** The assignments of parseRequestLine, up to the first word it refuses. */
    method Decide(m: Option<Method>, target: string, v: Option<Version>)
      modifies this`verb, this`uri, this`version, this`check, this`request
      ensures Value() == Verdict(old(Value()), m, target, v)
    {
      if m == None {
        request := BAD_REQUEST;
        return;
      }
      verb := m.value;
      uri := target;
      if v == None {
        request := BAD_REQUEST;
        return;
      }
      version := v.value;
      check := CheckHeader;
      request := NO_REQUEST;
    }

    method ParseRequestLine()
      requires Valid()
      modifies this`verb, this`uri, this`version, this`check, this`request
      ensures Value() == ParseRequestLineSpec(old(Value()))
    {
      ghost var w := WordsOf(line);
      var end := ScanVerb(w);
      var target, token := ScanRest(end, w);
      Decide(MethodOf(line[..end]), target, VersionOf(token));
    }

    method ParseMessageHeader()
      requires Valid()
      modifies this`check, this`connection, this`request
      ensures Value() == ParseMessageHeaderSpec(old(Value()))
    {
      if line != "" && line[0] == '\0' {
        check := CheckBody;
        request := NO_REQUEST;
        return;
      }
      if MatchesIgnoringCase(line, 0, CONNECTION_FIELD) {
        var start := ScanSpaces(11);
        if MatchesIgnoringCase(line, start, KEEP_ALIVE_VALUE) {
          connection := KEEP_ALIVE;
        } else {
          request := BAD_REQUEST;
          return;
        }
      }
      request := NO_REQUEST;
    }

    method ParseMessageBody()
      requires Valid()
      modifies this`check, this`request
      ensures Value() == ParseMessageBodySpec(old(Value()))
    {
      check := CheckEnd;
      request := GET_REQUEST;
    }

    /** Terminates exactly outside `Diverges`, and then computes `Handle`. */
    method HandleHttpRequest()
      requires Valid()
      requires !Diverges(Value(), input.Contents())
      modifies this, input`readIndex
      ensures Valid()
      ensures Parse(Value(), input.Contents()) == Handle(old(Value()), old(input.Contents()))
      ensures output.Contents() == old(output.Contents())
    {
      ghost var goal := Handle(Value(), input.Contents());
      HandleIsResume(Value(), input.Contents());
      var status := ParseLine();
      var stop := false;
      while status == LINE_OK && !stop
        invariant Valid() && output.Contents() == old(output.Contents())
        invariant !stop && status == LINE_OK ==> check != CheckEnd
        invariant !stop ==> Resume(status, Value(), input.Contents()) == goal
        invariant stop ==> status == LINE_OK && Parse(Value(), input.Contents()) == goal
        decreases Measure(stop, status)
      {
        status, stop := HandleLine(goal);
      }
      if status == LINE_OPEN {
        request := NO_REQUEST;
      } else if status == LINE_BAD {
        request := BAD_REQUEST;
      }
    }

    /** Unread bytes first, then how far the parser is from its end. */
    ghost function Measure(stop: bool, status: LineState): nat
      requires input.Valid()
      reads this, input, input.store
    {
      3 * |input.Contents()| + if stop || status != LINE_OK then 0 else if check == CheckBody then 1 else 2
    }

    /** One pass through the loop body; `stop` stands for its return and break statements. */
    method HandleLine(ghost goal: Parse) returns (status: LineState, stop: bool)
      requires Valid() && check != CheckEnd
      requires Resume(LINE_OK, Value(), input.Contents()) == goal
      modifies this, input`readIndex
      ensures Valid() && output.Contents() == old(output.Contents())
      ensures !stop && status == LINE_OK ==> check != CheckEnd
      ensures !stop ==> Resume(status, Value(), input.Contents()) == goal
      ensures stop ==> status == LINE_OK && Parse(Value(), input.Contents()) == goal
      ensures Measure(stop, status) < old(Measure(false, LINE_OK))
    {
      if check == CheckRequestLine {
        status, stop := InRequestLine(goal);
      } else if check == CheckHeader {
        status, stop := InHeader(goal);
      } else {
        ParseMessageBody();
        status, stop := LINE_OK, true;
      }
    }

    /** The case CHECK_STATE_REQUESTLINE. */
    method InRequestLine(ghost goal: Parse) returns (status: LineState, stop: bool)
      requires Valid() && check == CheckRequestLine
      requires Resume(LINE_OK, Value(), input.Contents()) == goal
      modifies this, input`readIndex
      ensures Valid() && output.Contents() == old(output.Contents())
      ensures !stop && status == LINE_OK ==> check != CheckEnd
      ensures !stop ==> Resume(status, Value(), input.Contents()) == goal
      ensures stop ==> status == LINE_OK && Parse(Value(), input.Contents()) == goal
      ensures Measure(stop, status) < old(Measure(false, LINE_OK))
    {
      ParseRequestLine();
      if request == BAD_REQUEST {
        return LINE_OK, true;
      }
      status := Fetch(goal);
      stop := false;
    }

    /** The case CHECK_STATE_HEADER; after the empty line the body state follows at once. */
    method InHeader(ghost goal: Parse) returns (status: LineState, stop: bool)
      requires Valid() && check == CheckHeader
      requires Resume(LINE_OK, Value(), input.Contents()) == goal
      modifies this, input`readIndex
      ensures Valid() && output.Contents() == old(output.Contents())
      ensures !stop && status == LINE_OK ==> check != CheckEnd
      ensures !stop ==> Resume(status, Value(), input.Contents()) == goal
      ensures stop ==> status == LINE_OK && Parse(Value(), input.Contents()) == goal
      ensures Measure(stop, status) < old(Measure(false, LINE_OK))
    {
      ParseMessageHeader();
      if request == BAD_REQUEST {
        return LINE_OK, true;
      }
      if check == CheckBody {
        return LINE_OK, false;
      }
      status := Fetch(goal);
      stop := false;
    }

    /** parseLine at the bottom of the loop. */
    method Fetch(ghost goal: Parse) returns (status: LineState)
      requires Valid() && check == CheckHeader
      requires Handle(Value(), input.Contents()) == goal
      modifies this`line, input`readIndex
      ensures Valid() && check == CheckHeader
      ensures Resume(status, Value(), input.Contents()) == goal
      ensures output.Contents() == old(output.Contents())
      ensures |input.Contents()| <= old(|input.Contents()|)
      ensures status == LINE_OK ==> |input.Contents()| < old(|input.Contents()|)
    {
      HandleIsResume(Value(), input.Contents());
      if StatusOf(input.Contents()) == LINE_OK {
        AfterLineShrinks(input.Contents());
      }
      status := ParseLine();
    }

    /** Parses what is in the input queue and appends one response, also to an incomplete request. */
    method Work(response: string)
      requires Valid()
      requires !Diverges(Value(), input.Contents())
      modifies this, input`readIndex, output, output.store
      ensures Valid() && (output.store == old(output.store) || fresh(output.store))
      ensures Parse(Value(), input.Contents()) == Handle(old(Value()), old(input.Contents()))
      ensures output.Contents() == old(output.Contents()) + response
    {
      HandleHttpRequest();
      output.Append(response);
    }
  }

  /** Index scanning cuts the same words as suffix scanning. */
  lemma CutSpaces(s: string, e: nat, b: nat)
    requires e <= |s| && b == SpacesEnd(s, e)
    ensures s[b..] == SkipSpaces(s[e..])
  {
    ScansShift(s, e);
    SuffixOfSuffix(s, e, b);
  }

  lemma CutWord(s: string, b: nat, f: nat)
    requires b <= |s| && f == TokenEnd(s, b)
    ensures s[b..f] == WordOf(s[b..]) && s[f..] == AfterWord(s[b..])
  {
    ScansShift(s, b);
    SuffixOfSuffix(s, b, f);
  }

  lemma SuffixOfSuffix(s: string, i: nat, j: nat)
    requires i <= j <= |s|
    ensures s[i..][j - i..] == s[j..] && s[i..][..j - i] == s[i..j]
  {
  }
}
