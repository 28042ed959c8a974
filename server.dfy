/**
 * The broadcast server of package `broadcast`: configuration by options, the
 * origin check of the websocket upgrader, the choice between TLS and plain
 * listening, the registration of upgraded connections, the fan-out of a line
 * to every connection, and the loop that keeps watching a file that is
 * overwritten.
 */
module Broadcast {
  import opened Wrappers
  import opened Watch
  import opened Registry

  /** Durations are counted in nanoseconds, as Go's `time.Duration` does. */
  const Second: int := 1_000_000_000
  const PongWait: int := 60 * Second
  const PingPeriod: int := (PongWait * 9) / 10
  const WriteWait: int := 8 * Second
  const MaxMessageSize: int := 1024
  const DefaultAddr: string := "127.0.0.1:8080"

  /** A ping goes out every 54 seconds, before the 60-second read deadline runs out. */
  lemma PingPrecedesDeadline()
    ensures PingPeriod == 54 * Second
    ensures 0 < PingPeriod < PongWait
  {
  }

  datatype ServerOption =
    | Address(addr: string)
    | Origin(origin: string)
    | Secure(certFile: string, keyFile: string)

  datatype Config = Config(addr: string, origin: string, certFile: string, keyFile: string)

  const Defaults: Config := Config(DefaultAddr, "", "", "")

  /** What one option closure assigns. */
  function Apply(c: Config, o: ServerOption): Config
  {
    match o
    case Address(a) => c.(addr := a)
    case Origin(a) => c.(origin := a)
    case Secure(cert, key) => c.(certFile := cert, keyFile := key)
  }

  /** The configuration `NewServer` builds: the options applied in order over the defaults. */
  function Configure(options: seq<ServerOption>): Config
  {
    if options == [] then Defaults
    else Apply(Configure(options[..|options| - 1]), options[|options| - 1])
  }

  /** Whether two options assign the same fields. */
  predicate SameField(o: ServerOption, p: ServerOption)
  {
    (o.Address? && p.Address?) || (o.Origin? && p.Origin?) || (o.Secure? && p.Secure?)
  }

  /** The value the last Address option gives, if any. */
  function LastAddress(options: seq<ServerOption>): Option<string>
  {
    if options == [] then None
    else match LastAddress(options[1..])
      case Some(a) => Some(a)
      case None => if options[0].Address? then Some(options[0].addr) else None
  }

  /** The value the last Origin option gives, if any. */
  function LastOrigin(options: seq<ServerOption>): Option<string>
  {
    if options == [] then None
    else match LastOrigin(options[1..])
      case Some(a) => Some(a)
      case None => if options[0].Origin? then Some(options[0].origin) else None
  }

  /** The certificate and key the last Secure option gives, if any. */
  function LastSecure(options: seq<ServerOption>): Option<(string, string)>
  {
    if options == [] then None
    else match LastSecure(options[1..])
      case Some(p) => Some(p)
      case None =>
        if options[0].Secure? then Some((options[0].certFile, options[0].keyFile)) else None
  }

  /** The last option of a kind is found by looking at the last element first. */
  lemma {:induction false} LastOfSnoc(options: seq<ServerOption>, o: ServerOption)
    ensures LastAddress(options + [o]) ==
              if o.Address? then Some(o.addr) else LastAddress(options)
    ensures LastOrigin(options + [o]) ==
              if o.Origin? then Some(o.origin) else LastOrigin(options)
    ensures LastSecure(options + [o]) ==
              if o.Secure? then Some((o.certFile, o.keyFile)) else LastSecure(options)
    decreases |options|
  {
    if options != [] {
      assert (options + [o])[1..] == options[1..] + [o];
      LastOfSnoc(options[1..], o);
    }
  }

  /**
   * Every field holds the value of the last option that sets it; a field no
   * option sets keeps its default.
   */
  lemma {:induction false} ConfigureFields(options: seq<ServerOption>)
    ensures Configure(options).addr ==
              match LastAddress(options) case Some(a) => a case None => DefaultAddr
    ensures Configure(options).origin ==
              match LastOrigin(options) case Some(a) => a case None => ""
    ensures (Configure(options).certFile, Configure(options).keyFile) ==
              match LastSecure(options) case Some(p) => p case None => ("", "")
    decreases |options|
  {
    if options != [] {
      var init, o := options[..|options| - 1], options[|options| - 1];
      assert options == init + [o];
      ConfigureFields(init);
      LastOfSnoc(init, o);
    }
  }

  /** An option is overridden only by a later option that sets the same fields. */
  lemma {:induction false} LaterOptionOverrides(before: seq<ServerOption>, o: ServerOption, after: seq<ServerOption>)
    requires forall i | 0 <= i < |after| :: !SameField(after[i], o)
    ensures Configure(before + [o] + after) == Apply(Configure(before + [o] + after), o)
    decreases |after|
  {
    if after == [] {
      assert before + [o] + after == before + [o];
    } else {
      var all := before + [o] + after;
      assert all[..|all| - 1] == before + [o] + after[..|after| - 1];
      LaterOptionOverrides(before, o, after[..|after| - 1]);
    }
  }

  /**
   * The upgrader's origin check: any request when no origin is configured,
   * otherwise exactly the requests whose Origin header equals it (a missing
   * header reads as the empty string).
   */
  function CheckOrigin(allowed: string, requestOrigin: string): (ok: bool)
    ensures allowed == "" ==> ok
    ensures allowed != "" ==> (ok <==> requestOrigin == allowed)
  {
    if allowed != "" then allowed == requestOrigin else true
  }

  /** The origin check of a server built from `options`, in terms of its Origin options. */
  lemma {:induction false} OriginCheckOfOptions(options: seq<ServerOption>, requestOrigin: string)
    ensures CheckOrigin(Configure(options).origin, requestOrigin) <==>
              match LastOrigin(options)
              case None => true
              case Some(o) => o == "" || o == requestOrigin
  {
    ConfigureFields(options);
  }

  datatype Listener =
    | Plain(addr: string)
    | Tls(addr: string, certFile: string, keyFile: string)

  /** `ListenAndServeTLS` when both files are named, `ListenAndServe` otherwise. */
  function SelectListener(c: Config): (l: Listener)
    ensures l.Tls? <==> c.certFile != "" && c.keyFile != ""
    ensures l.addr == c.addr
    ensures l.Tls? ==> l.certFile == c.certFile && l.keyFile == c.keyFile
  {
    if c.certFile != "" && c.keyFile != "" then Tls(c.addr, c.certFile, c.keyFile)
    else Plain(c.addr)
  }

  /** TLS is used exactly when the last Secure option names both files. */
  lemma {:induction false} TlsOfOptions(options: seq<ServerOption>)
    ensures SelectListener(Configure(options)).Tls? <==>
              LastSecure(options).Some? &&
              LastSecure(options).value.0 != "" && LastSecure(options).value.1 != ""
  {
    ConfigureFields(options);
  }

  datatype ServeError = ErrServerClosed | ServeFailure(reason: string)

  /** The listener's result: closing on shutdown is success, anything else is returned. */
  function ServeResult(err: ServeError): (r: Option<ServeError>)
    ensures r.None? <==> err == ErrServerClosed
    ensures r.Some? ==> r.value == err
  {
    if err == ErrServerClosed then None else Some(err)
  }

  /** Result of the watch retry loop over the `Watch` results seen so far. */
  datatype WatchOutcome = Stopped(err: Option<Error>) | StillWatching

  /** The first result that is not FileOverwritten ends the loop; nil included. */
  function RetryOutcome(results: seq<Option<Error>>): (o: WatchOutcome)
    ensures o.Stopped? ==> o.err != Some(FileOverwritten)
    ensures o.Stopped? ==>
              exists k | 0 <= k < |results| ::
                results[k] == o.err && forall j | 0 <= j < k :: results[j] == Some(FileOverwritten)
    ensures o.StillWatching? <==> forall j | 0 <= j < |results| :: results[j] == Some(FileOverwritten)
    decreases |results|
  {
    if results == [] then StillWatching
    else if results[0] != Some(FileOverwritten) then Stopped(results[0])
    else
      var o := RetryOutcome(results[1..]);
      if o.Stopped? then
        var k :| 0 <= k < |results[1..]| && results[1..][k] == o.err &&
                 forall j | 0 <= j < k :: results[1..][j] == Some(FileOverwritten);
        assert results[k + 1] == o.err;
        o
      else o
  }

  predicate AllOverwritten(results: seq<Option<Error>>)
  {
    forall j | 0 <= j < |results| :: results[j] == Some(FileOverwritten)
  }

  /** A run of FileOverwritten results followed by another result stops at that result. */
  lemma RetryStopsAtFirstOther(results: seq<Option<Error>>)
    requires results != [] && results[|results| - 1] != Some(FileOverwritten)
    requires forall j | 0 <= j < |results| - 1 :: results[j] == Some(FileOverwritten)
    ensures RetryOutcome(results) == Stopped(results[|results| - 1])
  {
  }

  /** One call of the reader's `Watch`: the file as opened, and what the watcher delivers. */
  datatype Session = Session(contents: Option<seq<Byte>>, notes: seq<Notification>)

  /** The results of the successive `Watch` calls, and the reader's state after the last. */
  datatype Run = Run(results: seq<Option<Error>>, tail: TailState)

  /**
   * The retry loop over the reader's state, from session `from` on: call
   * `Watch` with the next session while the previous call ended with
   * FileOverwritten.
   */
  function RetryRun(t: TailState, seekEnd: bool, absName: Option<string>, sessions: seq<Session>, from: nat): (r: Run)
    requires from <= |sessions|
    ensures |r.results| <= |sessions| - from
    ensures r.tail.closed == t.closed
    decreases |sessions| - from
  {
    if from == |sessions| then Run([], t)
    else
      var s := WatchCall(t, seekEnd, absName, sessions[from].contents, sessions[from].notes);
      if s.err != Some(FileOverwritten) then Run([s.err], s.tail)
      else
        var rest := RetryRun(s.tail, seekEnd, absName, sessions, from + 1);
        Run([s.err] + rest.results, rest.tail)
  }

  /**
   * The loop calls `Watch` again only after FileOverwritten, and stops before
   * the sessions run out only after another result.
   */
  lemma {:induction false} RetryRunShape(t: TailState, seekEnd: bool, absName: Option<string>,
                                         sessions: seq<Session>, from: nat)
    requires from <= |sessions|
    ensures var rs := RetryRun(t, seekEnd, absName, sessions, from).results;
            forall j | 0 <= j < |rs| - 1 :: rs[j] == Some(FileOverwritten)
    ensures var rs := RetryRun(t, seekEnd, absName, sessions, from).results;
            |rs| < |sessions| - from ==> rs != [] && rs[|rs| - 1] != Some(FileOverwritten)
    decreases |sessions| - from
  {
    if from < |sessions| {
      var s := WatchCall(t, seekEnd, absName, sessions[from].contents, sessions[from].notes);
      if s.err == Some(FileOverwritten) {
        RetryRunShape(s.tail, seekEnd, absName, sessions, from + 1);
      }
    }
  }

  /**
   * Over results that are FileOverwritten up to the last one, the retry loop
   * keeps running exactly when all of them are, and otherwise stops with the
   * last one.
   */
  lemma RetryOutcomeOfResults(results: seq<Option<Error>>)
    requires forall j | 0 <= j < |results| - 1 :: results[j] == Some(FileOverwritten)
    ensures RetryOutcome(results) ==
              if AllOverwritten(results) then StillWatching else Stopped(results[|results| - 1])
  {
    if !AllOverwritten(results) {
      RetryStopsAtFirstOther(results);
    }
  }

  /**
   * The outcome `RetryWatch` reports for a run (from input `from` on) is the
   * loop's outcome over that run's results: still watching exactly when the
   * inputs ran out with every call overwritten, otherwise stopped with the
   * last result.
   */
  lemma RetryRunOutcome(t: TailState, seekEnd: bool, absName: Option<string>, sessions: seq<Session>, from: nat)
    requires from <= |sessions|
    ensures var rs := RetryRun(t, seekEnd, absName, sessions, from).results;
            RetryOutcome(rs).StillWatching? <==> |rs| == |sessions| - from && AllOverwritten(rs)
    ensures var rs := RetryRun(t, seekEnd, absName, sessions, from).results;
            RetryOutcome(rs).Stopped? ==> RetryOutcome(rs).err == rs[|rs| - 1]
  {
    var rs := RetryRun(t, seekEnd, absName, sessions, from).results;
    RetryRunShape(t, seekEnd, absName, sessions, from);
    RetryOutcomeOfResults(rs);
    if |rs| < |sessions| - from {
      assert rs[|rs| - 1] != Some(FileOverwritten);
      assert !AllOverwritten(rs);
    }
  }

  /** How an upgrade request ends. */
  datatype Admission =
    | Rejected    // the origin check or the handshake failed; nothing is registered
    | Waiting     // upgraded, but `Add` waits for the registry's write lock
    | Registered

  class Server {
    var addr: string
    var origin: string
    var certFile: string
    var keyFile: string
    const connections: Connections

    function Settings(): Config
      reads this
    {
      Config(addr, origin, certFile, keyFile)
    }

    /** `NewServer`: defaults, an empty registry, then the options in order. */
    constructor (options: seq<ServerOption>)
      ensures Settings() == Configure(options)
      ensures fresh(connections)
      ensures connections.members == {} && connections.closed == {} && connections.readers == 0
    {
      addr, origin, certFile, keyFile := DefaultAddr, "", "", "";
      connections := new Connections();
      new;
      for i := 0 to |options|
        invariant Settings() == Configure(options[..i])
        invariant connections.members == {} && connections.closed == {} && connections.readers == 0
      {
        assert options[..i + 1][..i] == options[..i];
        match options[i] {
          case Address(a) => addr := a;
          case Origin(a) => origin := a;
          case Secure(cert, key) => certFile, keyFile := cert, key;
        }
      }
      assert options[..|options|] == options;
    }

    /**
     * `HandleWS`: the upgrade runs the origin check; `handshakeOk` is whether
     * the rest of the websocket handshake succeeds.  Only an upgraded
     * connection is added to the registry.
     */
    method HandleWS(requestOrigin: string, handshakeOk: bool, ws: ConnId) returns (a: Admission)
      modifies connections`members
      ensures a.Rejected? <==> !(CheckOrigin(origin, requestOrigin) && handshakeOk)
      ensures a.Registered? <==> !a.Rejected? && connections.readers == 0
      ensures connections.members ==
                if a.Registered? then old(connections.members) + {ws} else old(connections.members)
    {
      if !(CheckOrigin(origin, requestOrigin) && handshakeOk) {
        return Rejected;
      }
      var added := connections.Add(ws);
      a := if added then Registered else Waiting;
    }

    /** The close handler set on an upgraded connection: remove it, then close it. */
    method OnPeerClose(ws: ConnId) returns (r: Removal)
      modifies connections`members, connections`closed
      ensures r.Blocked? <==> connections.readers > 0
      ensures r.Blocked? ==>
                connections.members == old(connections.members) &&
                connections.closed == old(connections.closed)
      ensures r.Removed? ==>
                connections.members == old(connections.members) - {ws} &&
                connections.closed == old(connections.closed) + {ws}
    {
      r := connections.Delete(ws);
    }

    /**
     * A failed ping or a failed write closes the connection's transport; the
     * connection stays in the registry.
     */
    method OnSendFailure(ws: ConnId)
      modifies connections`closed
      ensures connections.closed == old(connections.closed) + {ws}
      ensures connections.members == old(connections.members)
    {
      var _ := connections.CloseConn(ws);
    }

    /**
     * `broadcast`: one write per registered connection.  Each visit starts a
     * write and continues, so every member is visited once and the read lock
     * is released.
     */
    method Broadcast(line: seq<Byte>) returns (targets: seq<ConnId>)
      modifies connections`readers
      ensures connections.readers == old(connections.readers)
      ensures Distinct(targets)
      ensures forall ws :: ws in connections.members <==> ws in targets
    {
      var continueAll := (ws: ConnId) => true;
      var stopped;
      targets, stopped := connections.IterAsWritten(continueAll);
    }

    /**
     * `Start`, once the shared context is done: every connection is closed,
     * the listener chosen by the configuration returned `serveErr`, and the
     * result maps ErrServerClosed to success.
     */
    method Start(serveErr: ServeError) returns (listener: Listener, err: Option<ServeError>)
      modifies connections`closed
      ensures listener == SelectListener(Settings())
      ensures err == ServeResult(serveErr)
      ensures connections.closed == old(connections.closed) + connections.members
    {
      connections.Close();
      if certFile != "" && keyFile != "" {
        listener := Tls(addr, certFile, keyFile);
      } else {
        listener := Plain(addr);
      }
      if serveErr == ErrServerClosed {
        err := None;
      } else {
        err := Some(serveErr);
      }
    }

    /**
     * `Watch`: a reader that starts at the end of the file, watched by the
     * retry loop; once the loop stops, the deferred `Close` closes the reader.
     */
    method Watch(absName: Option<string>, sessions: seq<Session>)
      returns (outcome: WatchOutcome, r: Reader, ghost results: seq<Option<Error>>)
      ensures fresh(r) && r.seekEnd
      ensures results == RetryRun(TailState(0, 0, 0, false), true, absName, sessions, 0).results
      ensures r.State() ==
                RetryRun(TailState(0, 0, 0, false), true, absName, sessions, 0).tail.(closed := outcome.Stopped?)
      ensures outcome.StillWatching? <==> |results| == |sessions| && AllOverwritten(results)
      ensures outcome.Stopped? ==> results != [] && outcome.err == results[|results| - 1]
    {
      r := new Reader([SeekEnd]);
      outcome, results := RetryWatch(r, absName, sessions);
      if outcome.Stopped? {
        var _ := r.Close();
      }
    }
  }

  /**
   * The loop of the goroutine that owns the reader: call the reader's `Watch`
   * again for as long as it ends with FileOverwritten.  `sessions` are the
   * successive calls' inputs; when they run out while every call was
   * overwritten, the loop is still running.
   */
  method RetryWatch(r: Reader, absName: Option<string>, sessions: seq<Session>)
    returns (outcome: WatchOutcome, ghost results: seq<Option<Error>>)
    modifies r
    ensures r.seekEnd == old(r.seekEnd)
    ensures Run(results, r.State()) == RetryRun(old(r.State()), old(r.seekEnd), absName, sessions, 0)
    ensures outcome == if |results| == |sessions| && AllOverwritten(results) then StillWatching
                       else Stopped(results[|results| - 1])
  {
    ghost var seekEnd := r.seekEnd;
    ghost var run := RetryRun(r.State(), seekEnd, absName, sessions, 0);
    results := [];
    var i := 0;
    while i < |sessions|
      invariant 0 <= i <= |sessions| && |results| == i
      invariant AllOverwritten(results)
      invariant r.seekEnd == seekEnd
      invariant run.results == results + RetryRun(r.State(), seekEnd, absName, sessions, i).results
      invariant run.tail == RetryRun(r.State(), seekEnd, absName, sessions, i).tail
    {
      var err := WatchNext(r, absName, sessions, i, run, results);
      results := results + [err];
      if err != Some(FileOverwritten) {
        return Stopped(err), results;
      }
      i := i + 1;
    }
    assert RetryRun(r.State(), seekEnd, absName, sessions, i) == Run([], r.State());
    assert run == Run(results, r.State());
    outcome := StillWatching;
  }

  /**
   * One turn of the retry loop: `Watch` on the next session's inputs, seen
   * against the run from that session on.
   */
  method WatchNext(r: Reader, absName: Option<string>, sessions: seq<Session>, i: nat,
                   ghost run: Run, ghost results: seq<Option<Error>>)
    returns (err: Option<Error>)
    modifies r
    requires i < |sessions| && AllOverwritten(results)
    requires run.results == results + RetryRun(r.State(), r.seekEnd, absName, sessions, i).results
    requires run.tail == RetryRun(r.State(), r.seekEnd, absName, sessions, i).tail
    ensures r.seekEnd == old(r.seekEnd)
    ensures err != Some(FileOverwritten) ==>
              && run == Run(results + [err], r.State())
              && !AllOverwritten(results + [err])
              && (results + [err])[|results|] == err
    ensures err == Some(FileOverwritten) ==>
              && AllOverwritten(results + [err])
              && run.results == (results + [err]) + RetryRun(r.State(), r.seekEnd, absName, sessions, i + 1).results
              && run.tail == RetryRun(r.State(), r.seekEnd, absName, sessions, i + 1).tail
  {
    err := r.Watch(absName, sessions[i].contents, sessions[i].notes);
    if err == Some(FileOverwritten) {
      var rest := RetryRun(r.State(), r.seekEnd, absName, sessions, i + 1);
      assert results + ([err] + rest.results) == (results + [err]) + rest.results;
    } else {
      assert (results + [err])[|results|] == err;
    }
  }
}
