/** gintool.go: the panic-recovery middleware (`RecoveryWithWriter`), the
    error-page handler built on it (`ginRecovery`), and the error-page and
    NoRoute registration done by `Start`. */
module GinTool {
  import opened Common
  import opened Text
  import opened Utils

  const StatusNotFound: int := 404
  const StatusInternalServerError: int := 500
  const StatusGatewayTimeout: int := 504

  // ---- the recovered panic value ----

  /** The error wrapped by a *net.OpError: an *os.SyscallError (the name of
      the system call and the text of its cause), or any other error. */
  datatype SysErr =
    | SyscallError(syscall: string, cause: string)
    | OtherError(text: string)

  /** A value handed to `panic`: a *net.OpError, or anything else. `shown`
      is how the value prints with %s. */
  datatype PanicValue =
    | NetOpError(err: SysErr, shown: string)
    | OtherPanic(shown: string)

  /** os.SyscallError.Error(): `syscall + ": " + cause`. */
  function SyscallText(se: SysErr): string
    requires se.SyscallError?
  {
    se.syscall + ": " + se.cause
  }

  /** The client went away: an *net.OpError wrapping an *os.SyscallError
      whose lowercased text has "broken pipe" or "connection reset by peer"
      somewhere in it. */
  ghost predicate IsDisconnect(p: PanicValue)
  {
    && p.NetOpError? && p.err.SyscallError?
    && ((exists i :: OccursAt(ToLower(SyscallText(p.err)), "broken pipe", i))
        || (exists i :: OccursAt(ToLower(SyscallText(p.err)), "connection reset by peer", i)))
  }

  /** The `brokenPipe` test of `RecoveryWithWriter`. */
  function BrokenPipe(p: PanicValue): (b: bool)
    ensures b <==> IsDisconnect(p)
  {
    if p.NetOpError? && p.err.SyscallError? then
      var text := ToLower(SyscallText(p.err));
      Contains(text, "broken pipe") || Contains(text, "connection reset by peer")
    else
      false
  }

  /** The status the response is aborted with: 504 for a disconnect and 500
      for every other panic. */
  function StatusFor(p: PanicValue): (status: int)
    ensures status == StatusGatewayTimeout <==> IsDisconnect(p)
    ensures status == StatusInternalServerError <==> !IsDisconnect(p)
  {
    if BrokenPipe(p) then StatusGatewayTimeout else StatusInternalServerError
  }

  /** A disconnect is recognised whatever the case of the syscall text. */
  lemma BrokenPipeUpperCase()
    ensures StatusFor(NetOpError(SyscallError("write", "Broken Pipe"), "")) == StatusGatewayTimeout
  {
    var text := ToLower(SyscallText(SyscallError("write", "Broken Pipe")));
    assert text[7..18] == "broken pipe";
    assert OccursAt(text, "broken pipe", 7);
  }

  /** Any other syscall failure, and any other panic, is a 500. */
  lemma OtherPanicsAreInternal(se: SysErr, shown: string, text: string)
    requires se.OtherError?
    ensures StatusFor(NetOpError(se, shown)) == StatusInternalServerError
    ensures StatusFor(OtherPanic(text)) == StatusInternalServerError
  {
  }

  // ---- redaction of the request dump ----

  const AuthorizationKey: string := "Authorization"
  const MaskedAuthorization: string := "Authorization: *"

  /** A dumped header line of the Authorization header: "Authorization"
      itself or a line starting with "Authorization:". The comparison is
      case-sensitive and a space before the colon does not match. */
  predicate IsAuthorizationLine(line: string)
  {
    line == AuthorizationKey || HasPrefix(line, AuthorizationKey + ":")
  }

  /** The test the code makes, `strings.Split(header, ":")[0] ==
      "Authorization"` (the text before the first ':' is exactly
      "Authorization"), picks out exactly those lines. */
  lemma AuthorizationLineForm(line: string)
    ensures Split(line, ":")[0] == AuthorizationKey <==> IsAuthorizationLine(line)
  {
    match IndexOf(line, ":")
    case None => FormWithoutColon(line);
    case Some(i) => FormWithColon(line, i);
  }

  /** Without a ':' the first piece is the whole line, and the line cannot
      start with "Authorization:". */
  lemma FormWithoutColon(line: string)
    requires IndexOf(line, ":").None?
    ensures Split(line, ":")[0] == line
    ensures !HasPrefix(line, AuthorizationKey + ":")
  {
    SplitHead(line, ":");
    PrefixColon(line);
  }

  /** With the first ':' at `i`, the first piece is "Authorization" exactly
      when the line starts with "Authorization:"; the line itself is not
      "Authorization", which has no ':'. */
  lemma FormWithColon(line: string, i: nat)
    requires IndexOf(line, ":") == Some(i)
    ensures Split(line, ":")[0] == line[..i]
    ensures line[..i] == AuthorizationKey <==> HasPrefix(line, AuthorizationKey + ":")
    ensures line != AuthorizationKey
  {
    var a := AuthorizationKey;
    SplitHead(line, ":");
    assert forall j :: 0 <= j < |a| ==> a[j] != ':';
    assert line[i] == ':' by { assert line[i..i + 1] == ":"; }
    if line[..i] == a {
      assert line[..14] == a + ":";
    }
    if HasPrefix(line, a + ":") {
      PrefixColon(line);
      assert line[..13] == a;
      assert forall j :: 0 <= j < 13 ==> line[j] == a[j];
      assert forall j :: 0 <= j < 13 ==> !OccursAt(line, ":", j) by {
        forall j | 0 <= j < 13 ensures !OccursAt(line, ":", j) {
          assert line[j..j + 1][0] == line[j];
        }
      }
    }
  }

  /** A line starting with "Authorization:" has its colon at index 13. */
  lemma PrefixColon(line: string)
    ensures HasPrefix(line, AuthorizationKey + ":") ==> OccursAt(line, ":", 13)
  {
    if HasPrefix(line, AuthorizationKey + ":") {
      assert line[13..14] == (AuthorizationKey + ":")[13..14];
    }
  }

  /** The rewrite of one line: the mask for an Authorization line, the
      line itself otherwise. */
  function RedactLine(line: string): (r: string)
    ensures IsAuthorizationLine(line) ==> r == MaskedAuthorization
    ensures !IsAuthorizationLine(line) ==> r == line
  {
    if IsAuthorizationLine(line) then MaskedAuthorization else line
  }

  lemma MaskSpelling()
    ensures AuthorizationKey + ": *" == MaskedAuthorization
  {
  }

  /** Every line rewritten on its own, the count kept. */
  function RedactLines(lines: seq<string>): (r: seq<string>)
    ensures |r| == |lines|
    ensures forall i :: 0 <= i < |lines| ==> r[i] == RedactLine(lines[i])
  {
    seq(|lines|, i requires 0 <= i < |lines| => RedactLine(lines[i]))
  }

  /** Every "Authorization:" header line passes the code's test and is
      masked, whatever its value (a colon inside the value included). */
  lemma AuthorizationHeaderMasked(value: string)
    ensures Split(AuthorizationKey + ":" + value, ":")[0] == AuthorizationKey
    ensures RedactLine(AuthorizationKey + ":" + value) == MaskedAuthorization
  {
    var line := AuthorizationKey + ":" + value;
    assert line[..14] == AuthorizationKey + ":";
    AuthorizationLineForm(line);
  }

  /** The masked line passes the code's test again, so masking it a second
      time changes nothing. */
  lemma MaskedIsAuthorization()
    ensures Split(MaskedAuthorization, ":")[0] == AuthorizationKey
    ensures RedactLine(MaskedAuthorization) == MaskedAuthorization
  {
    MaskedSplit();
    AuthorizationHeaderMasked(" *");
  }

  lemma MaskedSplit()
    ensures MaskedAuthorization == AuthorizationKey + ":" + " *"
  {
  }

  /** Redaction is idempotent. */
  lemma RedactIdempotent(lines: seq<string>)
    ensures RedactLines(RedactLines(lines)) == RedactLines(lines)
  {
    MaskedIsAuthorization();
  }

  /** With no Authorization line, redaction changes nothing. */
  lemma RedactWithoutAuthorization(lines: seq<string>)
    requires forall i :: 0 <= i < |lines| ==> !IsAuthorizationLine(lines[i])
    ensures RedactLines(lines) == lines
  {
  }

  /** The redacted dump: the request split into lines at "\r\n", every line
      rewritten, and re-joined with "\n". */
  function RedactedDump(dump: string): string
  {
    Join(RedactLines(Split(dump, "\r\n")), "\n")
  }

  /** No Authorization line survives: splitting the dump, each of its lines
      is either kept (it is not an Authorization line) or replaced by the
      mask. */
  lemma RedactedLinesMasked(dump: string, i: nat)
    requires i < |Split(dump, "\r\n")|
    ensures var line := Split(dump, "\r\n")[i];
            RedactLines(Split(dump, "\r\n"))[i] == (if IsAuthorizationLine(line) then MaskedAuthorization else line)
  {
  }

  /** `RedactLine` is the code's rewrite: with `current` the pieces of
      `strings.Split(header, ":")`, `current[0] + ": *"` when `current[0]`
      is "Authorization", the header itself otherwise. */
  lemma RedactLineCases(line: string, current: seq<string>)
    requires current == Split(line, ":")
    ensures current[0] == AuthorizationKey ==> RedactLine(line) == current[0] + ": *"
    ensures current[0] != AuthorizationKey ==> RedactLine(line) == line
  {
    AuthorizationLineForm(line);
    MaskSpelling();
  }

  /** The loop `for idx, header := range headers { ... headers[idx] = ... }`. */
  method RedactInPlace(headers: array<string>)
    modifies headers
    ensures headers[..] == RedactLines(old(headers[..]))
  {
    for idx := 0 to headers.Length
      invariant forall j :: 0 <= j < idx ==> headers[j] == RedactLine(old(headers[j]))
      invariant forall j :: idx <= j < headers.Length ==> headers[j] == old(headers[j])
    {
      var line := headers[idx];
      var current := Split(line, ":");
      RedactLineCases(line, current);
      if current[0] == AuthorizationKey {
        headers[idx] := current[0] + ": *";
      }
    }
  }

  /** The redaction step of `RecoveryWithWriter` on the dumped request. */
  method RedactHeaders(dump: string) returns (h: string)
    ensures h == RedactedDump(dump)
  {
    var lines := Split(dump, "\r\n");
    var headers := new string[|lines|](i requires 0 <= i < |lines| => lines[i]);
    assert headers[..] == lines;
    RedactInPlace(headers);
    h := Join(headers[..], "\n");
  }

  /** A bearer token is masked; a line of another header fails the code's
      test and is kept. */
  lemma BearerTokenMasked()
    ensures RedactLine("Authorization: Bearer XYZ") == MaskedAuthorization
    ensures Split("Host: example.com", ":")[0] != AuthorizationKey
    ensures RedactLine("Host: example.com") == "Host: example.com"
  {
    assert "Authorization: Bearer XYZ" == AuthorizationKey + ":" + " Bearer XYZ";
    AuthorizationHeaderMasked(" Bearer XYZ");
    var host := "Host: example.com";
    AuthorizationLineForm(host);
    assert host[0] != (AuthorizationKey + ":")[0];
  }

  // ---- what the middleware does with a recovered panic ----

  /** The request as the middleware sees it: the URL path and the text of
      `httputil.DumpRequest(c.Request, false)`. */
  datatype Request = Request(path: string, dump: string)

  /** The error-log records. */
  datatype LogRecord =
    | VisitFailed(path: string)                    // "errors when visit: %s"
    | RecoveredHeaders(headers: string)            // debug: the redacted request
    | RecoveredPanic(panicText: string)            // debug: the panic value
    | RecoveredSummary(path: string, panicText: string) // release: path and panic value

  /** The observable steps, in order: the abort, log records at INFO and
      ERROR level, and the call of the callback `f`. */
  datatype Event =
    | Abort(status: int)
    | Info(info: LogRecord)
    | Error(error: LogRecord)
    | Dispatch(status: int)

  /** Reference definition of the deferred handler: nothing when nothing
      was recovered; the abort alone for a disconnect; otherwise the abort,
      the log records of the mode in force and then one call of `f`. */
  function RecoveryEvents(recovered: Option<PanicValue>, req: Request, debug: bool): seq<Event>
  {
    match recovered
    case None => []
    case Some(p) =>
      if BrokenPipe(p) then [Abort(StatusGatewayTimeout)]
      else
        var logs :=
          if debug then [Error(RecoveredHeaders(RedactedDump(req.dump))), Error(RecoveredPanic(p.shown))]
          else [Error(RecoveredSummary(req.path, p.shown))];
        [Abort(StatusInternalServerError), Info(VisitFailed(req.path))] + logs + [Dispatch(StatusInternalServerError)]
  }

  /** `RecoveryWithWriter(f)`'s deferred function, given what `recover()`
      returned; `debug` is gin.IsDebugging(). */
  method Recovery(recovered: Option<PanicValue>, req: Request, debug: bool) returns (events: seq<Event>)
    ensures events == RecoveryEvents(recovered, req, debug)
  {
    if recovered.None? {
      return [];
    }
    var p := recovered.value;
    var status := StatusInternalServerError;
    var brokenPipe := false;
    if p.NetOpError? && p.err.SyscallError? {
      var text := ToLower(SyscallText(p.err));
      if Contains(text, "broken pipe") || Contains(text, "connection reset by peer") {
        brokenPipe := true;
        status := StatusGatewayTimeout;
      }
    }
    events := [Abort(status)];
    if brokenPipe {
      return;
    }
    var h := RedactHeaders(req.dump);
    events := events + [Info(VisitFailed(req.path))];
    if debug {
      events := events + [Error(RecoveredHeaders(h)), Error(RecoveredPanic(p.shown))];
    } else {
      events := events + [Error(RecoveredSummary(req.path, p.shown))];
    }
    events := events + [Dispatch(status)];
  }

  /** A disconnect aborts with 504 and then returns: no log record and no
      call of `f`. */
  lemma DisconnectOnlyAborts(p: PanicValue, req: Request, debug: bool)
    requires IsDisconnect(p)
    ensures RecoveryEvents(Some(p), req, debug) == [Abort(StatusFor(p))]
    ensures forall i :: 0 <= i < |RecoveryEvents(Some(p), req, debug)| ==> !RecoveryEvents(Some(p), req, debug)[i].Dispatch?
  {
  }

  /** Any other panic aborts first, with the classified status, and calls
      `f` exactly once, as the last step, with that status. */
  lemma OtherPanicDispatchesOnce(p: PanicValue, req: Request, debug: bool)
    requires !IsDisconnect(p)
    ensures var ev := RecoveryEvents(Some(p), req, debug);
            && |ev| >= 2 && ev[0] == Abort(StatusFor(p))
            && ev[|ev| - 1] == Dispatch(StatusFor(p))
            && forall i :: 0 <= i < |ev| - 1 ==> !ev[i].Dispatch? && (i > 0 ==> !ev[i].Abort?)
  {
  }

  /** Debug mode logs the visit and two errors (the redacted request, then
      the panic value); release mode logs the visit and one summary. */
  lemma RecoveryLogs(p: PanicValue, req: Request, debug: bool)
    requires !IsDisconnect(p)
    ensures var ev := RecoveryEvents(Some(p), req, debug);
            |ev| == (if debug then 5 else 4)
            && ev[1] == Info(VisitFailed(req.path))
            && (debug ==> ev[2] == Error(RecoveredHeaders(RedactedDump(req.dump))) && ev[3] == Error(RecoveredPanic(p.shown)))
            && (!debug ==> ev[2] == Error(RecoveredSummary(req.path, p.shown)))
  {
  }

  // ---- ginRecovery: the error page ----

  /** The data handed to a template: nil, or `gin.H{"errors": errors}`. */
  datatype PageData = NoData | ErrorsData(errors: map<int, string>)

  /** What a handler leaves in the response. */
  datatype Response = Response(status: int, body: string, aborted: bool)

  /** The callback of `ginRecovery`: the page `errorName(status)` rendered
      (by `render`, standing for c.HTML with the registered templates) when
      the status has an error page, nothing otherwise. */
  function ErrorPage(errors: map<int, string>, status: int, render: (string, PageData) -> string): (page: Option<string>)
    ensures page.Some? <==> status in errors
    ensures page.Some? ==> page.value == render(ErrorName(status), ErrorsData(errors))
  {
    if status in errors then Some(render(ErrorName(status), ErrorsData(errors))) else None
  }

  /** The response after the recovery middleware of `ginRecovery(errors)`
      has handled a panic: the abort sets the status, and the page, if any,
      is the body written by the one call of `f`. */
  function RecoveredResponse(errors: map<int, string>, events: seq<Event>, render: (string, PageData) -> string): Response
    requires |events| > 0 && events[0].Abort?
  {
    var status := events[0].status;
    var dispatched := events[|events| - 1].Dispatch?;
    var page := ErrorPage(errors, status, render);
    Response(status, if dispatched && page.Some? then page.value else "", true)
  }

  /** `ginRecovery(errors)` around a handler that panicked with `p`. */
  method GinRecovery(errors: map<int, string>, p: PanicValue, req: Request, debug: bool, render: (string, PageData) -> string)
    returns (resp: Response)
    ensures resp.aborted && resp.status == StatusFor(p)
    ensures resp.body == (if !IsDisconnect(p) && StatusFor(p) in errors then render(ErrorName(StatusFor(p)), ErrorsData(errors)) else "")
  {
    var events := Recovery(Some(p), req, debug);
    resp := RecoveredResponse(errors, events, render);
  }

  /** With an empty error map, a panicking handler yields 500 with an empty
      body. */
  lemma EmptyErrorMapGivesBare500(text: string, req: Request, debug: bool, render: (string, PageData) -> string)
    ensures RecoveredResponse(map[], RecoveryEvents(Some(OtherPanic(text)), req, debug), render) == Response(500, "", true)
  {
  }

  /** With a 500 page registered, the panic renders it with the error map. */
  lemma MappedPageRendered(errors: map<int, string>, text: string, req: Request, debug: bool, render: (string, PageData) -> string)
    requires StatusInternalServerError in errors
    ensures RecoveredResponse(errors, RecoveryEvents(Some(OtherPanic(text)), req, debug), render)
              == Response(500, render(ErrorName(500), ErrorsData(errors)), true)
  {
  }

  // ---- Start: error templates and the NoRoute handler ----

  /** The error-page part of `Start`: one template per error-map entry,
      named `errorName(status)` and loaded from the entry's file, and a
      NoRoute handler exactly when 404 has a page. */
  method RegisterErrorPages(errors: map<int, string>) returns (templates: map<string, string>, noRoute: bool)
    ensures templates.Keys == set k | k in errors :: ErrorName(k)
    ensures forall k :: k in errors ==> templates[ErrorName(k)] == errors[k]
    ensures noRoute <==> StatusNotFound in errors
  {
    templates := map[];
    var keys := errors.Keys;
    while |keys| > 0
      invariant keys <= errors.Keys
      invariant templates.Keys == set k | k in errors.Keys - keys :: ErrorName(k)
      invariant forall k :: k in errors.Keys - keys ==> ErrorName(k) in templates && templates[ErrorName(k)] == errors[k]
      decreases keys
    {
      ghost var member := SomeMember(keys);
      var k :| k in keys;
      forall k' | k' in errors.Keys - keys
        ensures ErrorName(k') != ErrorName(k)
      {
        ErrorNameInjective(k', k);
      }
      templates := templates[ErrorName(k) := errors[k]];
      keys := keys - {k};
    }
    noRoute := StatusNotFound in errors;
  }

  /** gin's own body for an unmatched route. */
  const DefaultNotFoundBody: string := "404 page not found"

  /** An unmatched route: the registered 404 page rendered with nil data,
      or gin's default body when 404 has no page. */
  function NoRouteResponse(errors: map<int, string>, render: (string, PageData) -> string): (resp: Response)
    ensures resp.status == StatusNotFound && !resp.aborted
    ensures StatusNotFound in errors ==> resp.body == render(ErrorName(StatusNotFound), NoData)
    ensures StatusNotFound !in errors ==> resp.body == DefaultNotFoundBody
  {
    if StatusNotFound in errors then Response(StatusNotFound, render(ErrorName(StatusNotFound), NoData), false)
    else Response(StatusNotFound, DefaultNotFoundBody, false)
  }
}
