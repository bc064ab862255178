/**
 * The five call rules that test a suffix of the callee's qualified name:
 * B205, B319, B324, B327 and B336. Each one first asks whether a module like
 * its guard module is imported, then whether the qualified name ends with its
 * suffix, and if both hold reports a HIGH severity, MEDIUM confidence issue
 * whose line is the line of the call's `debug` argument.
 */
module CallPlugins {
  import opened Wrappers
  import opened PyStrings
  import opened Core

  /** The shared shape of the five rules. */
  function SuffixRule(guard: string, suffix: string, text: string, ctx: Context): (r: Option<Issue>)
    ensures guard !in ctx.importedLike ==> r == None
    ensures guard in ctx.importedLike ==> (r.Some? <==> EndsWith(ctx.qual, suffix))
    ensures r.Some? ==> r.value == Issue(HIGH, MEDIUM, text, ctx.debugLine)
  {
    if guard in ctx.importedLike then
      if EndsWith(ctx.qual, suffix) then Some(Issue(HIGH, MEDIUM, text, ctx.debugLine)) else None
    else None
  }

  /** B205: `socket.sendall`-style calls; the suffix carries a leading dot. */
  function SocketSendall(ctx: Context): (r: Option<Issue>)
    ensures "socket" !in ctx.importedLike ==> r == None
    ensures "socket" in ctx.importedLike ==> (r.Some? <==> EndsWith(ctx.qual, ".sendall"))
    ensures r.Some? ==> r.value == Issue(HIGH, MEDIUM, "Send data to the socket", ctx.debugLine)
  {
    SuffixRule("socket", ".sendall", "Send data to the socket", ctx)
  }

  /** B324: `http.client.HTTPConnection`-style calls. */
  function HttpClientHttpConnection(ctx: Context): (r: Option<Issue>)
    ensures "http" !in ctx.importedLike ==> r == None
    ensures "http" in ctx.importedLike ==> (r.Some? <==> EndsWith(ctx.qual, "HTTPConnection"))
    ensures r.Some? ==> r.value == Issue(HIGH, MEDIUM, "http.client.HTTPConnection", ctx.debugLine)
  {
    SuffixRule("http", "HTTPConnection", "http.client.HTTPConnection", ctx)
  }

  /** B319: `socket.socket.sendall`-style calls; no dot in the suffix. */
  function SocketSocketSendall(ctx: Context): (r: Option<Issue>)
    ensures "socket" !in ctx.importedLike ==> r == None
    ensures "socket" in ctx.importedLike ==> (r.Some? <==> EndsWith(ctx.qual, "sendall"))
    ensures r.Some? ==> r.value == Issue(HIGH, MEDIUM, "socket.socket.sendall", ctx.debugLine)
  {
    SuffixRule("socket", "sendall", "socket.socket.sendall", ctx)
  }

  /** B327: `urllib.urlretrieve`-style calls. */
  function UrllibUrlretrieve(ctx: Context): (r: Option<Issue>)
    ensures "urllib" !in ctx.importedLike ==> r == None
    ensures "urllib" in ctx.importedLike ==> (r.Some? <==> EndsWith(ctx.qual, "urlretrieve"))
    ensures r.Some? ==> r.value == Issue(HIGH, MEDIUM, "urllib_urlretrieve", ctx.debugLine)
  {
    SuffixRule("urllib", "urlretrieve", "urllib_urlretrieve", ctx)
  }

  /** B336: `os.write`-style calls. */
  function OsWrite(ctx: Context): (r: Option<Issue>)
    ensures "os" !in ctx.importedLike ==> r == None
    ensures "os" in ctx.importedLike ==> (r.Some? <==> EndsWith(ctx.qual, "write"))
    ensures r.Some? ==> r.value == Issue(HIGH, MEDIUM, "os_write", ctx.debugLine)
  {
    SuffixRule("os", "write", "os_write", ctx)
  }

  /** A call context with the given imported-like set and qualified name. */
  function At(imported: set<string>, qual: string): Context
  {
    Context(imported, qual, None)
  }

  /**
   * B205 fires exactly when the name is some prefix followed by `.sendall`,
   * that is, when the name has a dot and its final segment is `sendall`:
   * the leading dot makes it a whole-segment match.
   */
  lemma SocketSendallMeaning(ctx: Context)
    ensures SocketSendall(ctx).Some? <==>
      "socket" in ctx.importedLike && exists p :: ctx.qual == p + ".sendall"
    ensures SocketSendall(ctx).Some? <==>
      "socket" in ctx.importedLike && '.' in ctx.qual && LastSegment(ctx.qual) == "sendall"
  {
    EndsWithIffConcat(ctx.qual, ".sendall");
    assert "." + "sendall" == ".sendall";
    DotSuffixIffLastSegment(ctx.qual, "sendall");
  }

  /**
   * B324 fires exactly when the name is some prefix followed by
   * `HTTPConnection`, that is, when its final dotted segment ends with
   * `HTTPConnection` (so `HTTPConnection` segments of any module match).
   */
  lemma HttpClientHttpConnectionMeaning(ctx: Context)
    ensures HttpClientHttpConnection(ctx).Some? <==>
      "http" in ctx.importedLike && exists p :: ctx.qual == p + "HTTPConnection"
    ensures HttpClientHttpConnection(ctx).Some? <==>
      "http" in ctx.importedLike && EndsWith(LastSegment(ctx.qual), "HTTPConnection")
  {
    EndsWithIffConcat(ctx.qual, "HTTPConnection");
    EndsWithIffLastSegmentEndsWith(ctx.qual, "HTTPConnection");
  }

  /**
   * B319 fires exactly when the name is some prefix followed by
   * `sendall`, that is, when its final dotted segment ends with
   * `sendall` (so `mysendall` matches as well).
   */
  lemma SocketSocketSendallMeaning(ctx: Context)
    ensures SocketSocketSendall(ctx).Some? <==>
      "socket" in ctx.importedLike && exists p :: ctx.qual == p + "sendall"
    ensures SocketSocketSendall(ctx).Some? <==>
      "socket" in ctx.importedLike && EndsWith(LastSegment(ctx.qual), "sendall")
  {
    EndsWithIffConcat(ctx.qual, "sendall");
    EndsWithIffLastSegmentEndsWith(ctx.qual, "sendall");
  }

  /**
   * B327 fires exactly when the name is some prefix followed by
   * `urlretrieve`, that is, when its final dotted segment ends with
   * `urlretrieve` (whatever package the function is reached through).
   */
  lemma UrllibUrlretrieveMeaning(ctx: Context)
    ensures UrllibUrlretrieve(ctx).Some? <==>
      "urllib" in ctx.importedLike && exists p :: ctx.qual == p + "urlretrieve"
    ensures UrllibUrlretrieve(ctx).Some? <==>
      "urllib" in ctx.importedLike && EndsWith(LastSegment(ctx.qual), "urlretrieve")
  {
    EndsWithIffConcat(ctx.qual, "urlretrieve");
    EndsWithIffLastSegmentEndsWith(ctx.qual, "urlretrieve");
  }

  /**
   * B336 fires exactly when the name is some prefix followed by
   * `write`, that is, when its final dotted segment ends with
   * `write` (so `rewrite` matches as well, on any object).
   */
  lemma OsWriteMeaning(ctx: Context)
    ensures OsWrite(ctx).Some? <==>
      "os" in ctx.importedLike && exists p :: ctx.qual == p + "write"
    ensures OsWrite(ctx).Some? <==>
      "os" in ctx.importedLike && EndsWith(LastSegment(ctx.qual), "write")
  {
    EndsWithIffConcat(ctx.qual, "write");
    EndsWithIffLastSegmentEndsWith(ctx.qual, "write");
  }

  /**
   * Every call B205 reports is also reported by B319, with the same severity,
   * confidence and line; only the text differs.
   */
  lemma SocketSendallImpliesSocketSocketSendall(ctx: Context)
    requires SocketSendall(ctx).Some?
    ensures SocketSocketSendall(ctx).Some?
    ensures SocketSocketSendall(ctx).value.severity == SocketSendall(ctx).value.severity
    ensures SocketSocketSendall(ctx).value.confidence == SocketSendall(ctx).value.confidence
    ensures SocketSocketSendall(ctx).value.lineno == SocketSendall(ctx).value.lineno
  {
    EndsWithDropFront(ctx.qual, ".", "sendall");
  }

  /** The converse fails: a bare `sendall` is reported by B319 but not by B205. */
  lemma BareSendallSeparatesTheSocketRules()
    ensures SocketSocketSendall(At({"socket"}, "sendall")).Some?
    ensures SocketSendall(At({"socket"}, "sendall")).None?
  {
  }

  /** B205 examples: the dot before `sendall` is required. */
  lemma SocketSendallExamples()
    ensures SocketSendall(At({"socket"}, "socket.sendall")).Some?
    ensures SocketSendall(At({"socket"}, "foo.sendall")).Some?
    ensures SocketSendall(At({"socket"}, "mysendall")).None?
    ensures SocketSendall(At({}, "socket.sendall")).None?
  {
  }

  /** B324 examples: the extra `S` and lower case both break the suffix. */
  lemma HttpClientHttpConnectionExamples()
    ensures HttpClientHttpConnection(At({"http"}, "http.client.HTTPConnection")).Some?
    ensures HttpClientHttpConnection(At({"http"}, "http.client.HTTPSConnection")).None?
    ensures HttpClientHttpConnection(At({"http"}, "http.client.httpconnection")).None?
  {
  }

  /** B319 examples: no dot is required. */
  lemma SocketSocketSendallExamples()
    ensures SocketSocketSendall(At({"socket"}, "socket.socket.sendall")).Some?
    ensures SocketSocketSendall(At({"socket"}, "mysendall")).Some?
    ensures SocketSocketSendall(At({"os"}, "socket.socket.sendall")).None?
  {
  }

  /** B327 examples. */
  lemma UrllibUrlretrieveExamples()
    ensures UrllibUrlretrieve(At({"urllib"}, "urllib.urlretrieve")).Some?
    ensures UrllibUrlretrieve(At({"urllib"}, "urllib.request.urlretrieve")).Some?
    ensures UrllibUrlretrieve(At({"urllib"}, "urllib.request.urlopen")).None?
  {
  }

  /** B336 examples: `rewrite` over-matches, `writev` and `writelines` do not. */
  lemma OsWriteExamples()
    ensures OsWrite(At({"os"}, "os.write")).Some?
    ensures OsWrite(At({"os"}, "f.write")).Some?
    ensures OsWrite(At({"os"}, "os.rewrite")).Some?
    ensures OsWrite(At({"os"}, "os.writev")).None?
    ensures OsWrite(At({"os"}, "f.writelines")).None?
  {
  }
}
