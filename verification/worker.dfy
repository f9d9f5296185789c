/** The per-resource goroutine that `run` starts for every declared resource
    (config.go:121-162), as a sequential state machine.

    The goroutine walks the resource's backend configs in declaration order.
    At the top of every pass through the retry loop it either sees the shared
    context cancelled, or calls `Connect()` on the current config. That choice
    is an `Attempt`, and a finite script of attempts drives the model. Once
    every config is resolved it registers the deferred `Close`, calls
    `NewResource` and, if that succeeded, `Monitor(ctx)`. `Monitor` blocks
    until the context is cancelled or it fails internally; whether it has
    returned within the observed run is part of the `NewResource` outcome.

    The model only counts calls of `backendList.Close()` in `closes`; the Go
    code has no such counter. */
module Worker {

  /** What one `config.Connect()` call returns. `ErrNilConfig` is the sentinel
      meaning "this backend type is not configured for the resource". */
  datatype ConnectResult<C, E> = Ok(client: C) | ErrNilConfig | Err(error: E)

  /** One pass through the `select` at the top of the retry loop: the context
      is seen cancelled, or the default branch calls `Connect()`. */
  datatype Attempt<C, E> = Cancelled | Connect(result: ConnectResult<C, E>)

  /** What `template.NewResource` returns. For a built resource,
      `monitorReturns` says whether its `Monitor(ctx)` call returns (after a
      cancellation or an internal failure) or is still blocked. */
  datatype BuildResult<E> = Built(monitorReturns: bool) | BuildError(error: E)

  /** The `return` the goroutine took. */
  datatype Exit<E> = CancelledExit | BuildFailed(error: E) | MonitorReturned

  datatype Phase<E> =
    | Connecting(config: nat)  // top of the retry loop for backend config number `config`
    | Building                 // every config resolved; the defer and NewResource come next
    | Watching                 // NewResource succeeded; Monitor(ctx) is running
    | Returned(exit: Exit<E>)

  /** The goroutine's state: `backends` is `backendList`, `retries` the number
      of failed connects that were slept on, `closes` the number of
      `backendList.Close()` calls, and the flags record whether the defer at
      line 153 was registered and whether `NewResource` and `Monitor` were
      called. */
  datatype State<C, E> = State(
    phase: Phase<E>,
    backends: seq<C>,
    retries: nat,
    closes: nat,
    deferArmed: bool,
    newResourceCalled: bool,
    monitorCalled: bool)

  /** The phase after config `next - 1` is resolved: the next config, or the
      build once the loop over `n` configs is over. */
  function Next<E>(next: nat, n: nat): Phase<E>
  {
    if next < n then Connecting(next) else Building
  }

  /** Nothing after the connect loop has happened yet. */
  predicate Untouched<C, E>(s: State<C, E>)
  {
    s.closes == 0 && !s.deferArmed && !s.newResourceCalled && !s.monitorCalled
  }

  /** The states the goroutine can be in, for a resource with `n` backend
      configs whose `NewResource` call yields `build`. Each phase fixes how
      often the list was closed and which calls were made. */
  ghost predicate Reachable<C, E>(n: nat, build: BuildResult<E>, s: State<C, E>)
  {
    match s.phase
    case Connecting(i) => i < n && Untouched(s)
    case Building => Untouched(s)
    case Watching =>
      build.Built? && s.closes == 0 && s.deferArmed && s.newResourceCalled && s.monitorCalled
    case Returned(CancelledExit) =>
      s.closes == 1 && !s.deferArmed && !s.newResourceCalled && !s.monitorCalled
    case Returned(BuildFailed(e)) =>
      build == BuildError(e) && s.closes == 1 && s.deferArmed && s.newResourceCalled && !s.monitorCalled
    case Returned(MonitorReturned) =>
      build == Built(true) && s.closes == 1 && s.deferArmed && s.newResourceCalled && s.monitorCalled
  }

  /** The goroutine as it starts: an empty `backendList`, and the first config
      (or, for a resource without backend configs, the build) ahead. */
  function Start<C, E>(n: nat, build: BuildResult<E>): (s: State<C, E>)
    ensures Reachable(n, build, s)
    ensures s.backends == [] && s.retries == 0
    ensures n == 0 <==> s.phase.Building?
  {
    State(Next(0, n), [], 0, 0, false, false, false)
  }

  /** One pass through the retry loop (lines 129-148) for the current config. */
  function ConnectStep<C, E>(n: nat, build: BuildResult<E>, s: State<C, E>, a: Attempt<C, E>): (r: State<C, E>)
    requires Reachable(n, build, s) && s.phase.Connecting?
    ensures Reachable(n, build, r)
    // only a cancellation leaves the loop, and it closes the list once
    ensures r.phase.Returned? <==> a.Cancelled?
    ensures r.closes == (if a.Cancelled? then 1 else 0)
    // the list only grows at its end, by one client exactly when Connect succeeded
    ensures s.backends <= r.backends
    ensures |r.backends| == |s.backends| + (if a.Connect? && a.result.Ok? then 1 else 0)
    ensures a.Connect? && a.result.Ok? ==> r.backends[|s.backends|] == a.result.client
    // an error other than the sentinel is slept on and the same config is tried again
    ensures r.retries == s.retries + (if a.Connect? && a.result.Err? then 1 else 0)
    ensures r.phase == Connecting(s.phase.config) <==> a.Connect? && a.result.Err?
    // success and the sentinel both move on to the following config
    ensures a.Connect? && !a.result.Err? ==> r.phase == Next(s.phase.config + 1, n)
  {
    match a
    case Cancelled =>
      s.(phase := Returned(CancelledExit), closes := s.closes + 1)
    case Connect(Ok(c)) =>
      s.(phase := Next(s.phase.config + 1, n), backends := s.backends + [c])
    case Connect(ErrNilConfig) =>
      s.(phase := Next(s.phase.config + 1, n))
    case Connect(Err(_)) =>
      s.(retries := s.retries + 1)
  }

  /** Lines 153-161: register the deferred `Close`, then call `NewResource`;
      on an error the goroutine returns and the deferred `Close` fires,
      otherwise `Monitor(ctx)` is entered with the list still open. */
  function BuildStep<C, E>(n: nat, build: BuildResult<E>, s: State<C, E>): (r: State<C, E>)
    requires Reachable(n, build, s) && s.phase.Building?
    ensures Reachable(n, build, r)
    ensures r.backends == s.backends && r.retries == s.retries
    ensures r.newResourceCalled && r.deferArmed
    ensures r.phase.Watching? <==> build.Built?
    ensures r.monitorCalled <==> build.Built?
    ensures r.closes == (if build.Built? then 0 else 1)
  {
    var armed := s.(deferArmed := true, newResourceCalled := true);
    match build
    case Built(_) => armed.(phase := Watching, monitorCalled := true)
    case BuildError(e) => armed.(phase := Returned(BuildFailed(e)), closes := s.closes + 1)
  }

  /** Line 161 onwards: `Monitor(ctx)` returns, the goroutine ends and the
      deferred `Close` fires. */
  function WatchStep<C, E>(n: nat, build: BuildResult<E>, s: State<C, E>): (r: State<C, E>)
    requires Reachable(n, build, s) && s.phase.Watching? && build.monitorReturns
    ensures Reachable(n, build, r)
    ensures r.phase == Returned(MonitorReturned)
    ensures r.closes == s.closes + 1
    ensures r.backends == s.backends && r.retries == s.retries
  {
    s.(phase := Returned(MonitorReturned), closes := s.closes + 1)
  }

  function Rank<E>(p: Phase<E>): nat
  {
    match p
    case Connecting(_) => 3
    case Building => 2
    case Watching => 1
    case Returned(_) => 0
  }

  /** Runs the goroutine from `s`, taking one script entry per pass through
      the retry loop. When the script ends during the connect loop the
      goroutine is still running and the state is returned as it is; so it
      is while `Monitor` stays blocked. */
  function Drive<C, E>(n: nat, script: seq<Attempt<C, E>>, build: BuildResult<E>, s: State<C, E>): (r: State<C, E>)
    requires Reachable(n, build, s)
    ensures Reachable(n, build, r)
    ensures r.phase.Connecting? || r.phase.Watching? || r.phase.Returned?
    ensures r.phase.Watching? ==> build == Built(false)
    ensures s.backends <= r.backends
    // a run that ends in the connect loop used up a cancel-free script, and
    // is where the reference reading of that script says it is
    ensures r.phase.Connecting? ==> s.phase.Connecting? && CancelFree(script) && r == Advance(s, script)
    decreases |script|, Rank(s.phase)
  {
    match s.phase
    case Connecting(_) =>
      if script == [] then
        assert s.backends + Clients(script) == s.backends;
        s
      else
        var r := Drive(n, script[1..], build, ConnectStep(n, build, s, script[0]));
        if r.phase.Connecting? then
          assert script == [script[0]] + script[1..];
          StepExtendsReading(n, build, s, script[0], script[1..], r);
          r
        else r
    case Building => Drive(n, script, build, BuildStep(n, build, s))
    case Watching =>
      if build.monitorReturns then Drive(n, script, build, WatchStep(n, build, s)) else s
    case Returned(_) => s
  }

  /** The whole goroutine for a resource with `n` backend configs. On every
      return the list was closed exactly once: by the explicit `Close` on
      cancellation, which returns before the defer is registered, or by the
      deferred `Close` otherwise. While the goroutine is still connecting or
      still in `Monitor`, nothing has been closed. `Monitor` runs only after a
      successful `NewResource`, and cancellation skips both. */
  function Run<C, E>(n: nat, script: seq<Attempt<C, E>>, build: BuildResult<E>): (r: State<C, E>)
    ensures r.phase.Returned? ==> r.closes == 1
    ensures r.phase.Connecting? ==> r.closes == 0
    ensures r.phase.Watching? ==> r.closes == 0 && r.deferArmed && r.monitorCalled && build == Built(false)
    ensures r.phase.Connecting? || r.phase.Watching? || r.phase.Returned?
    ensures r.phase == Returned(CancelledExit) ==> !r.deferArmed && !r.newResourceCalled && !r.monitorCalled
    ensures r.phase.Returned? && r.phase.exit != CancelledExit ==> r.deferArmed && r.newResourceCalled
    ensures r.monitorCalled ==> r.newResourceCalled && build.Built?
    ensures r.monitorCalled <==> r.phase.Watching? || r.phase == Returned(MonitorReturned)
    ensures r.newResourceCalled && build.BuildError? ==> r.phase == Returned(BuildFailed(build.error))
  {
    Drive(n, script, build, Start(n, build))
  }

  // ---------------------------------------------------------------------
  // A reference reading of an attempt script, independent of the state machine.

  /** An attempt that ends the retry loop for its config without cancelling. */
  predicate Resolves<C, E>(a: Attempt<C, E>)
  {
    a.Connect? && !a.result.Err?
  }

  predicate CancelFree<C, E>(p: seq<Attempt<C, E>>)
  {
    forall k :: 0 <= k < |p| ==> !p[k].Cancelled?
  }

  /** How many configs the attempts in `p` resolve. */
  function Resolutions<C, E>(p: seq<Attempt<C, E>>): nat
  {
    if p == [] then 0 else (if Resolves(p[0]) then 1 else 0) + Resolutions(p[1..])
  }

  /** How many attempts in `p` failed with an error other than the sentinel. */
  function Failures<C, E>(p: seq<Attempt<C, E>>): nat
  {
    if p == [] then 0 else (if p[0].Connect? && p[0].result.Err? then 1 else 0) + Failures(p[1..])
  }

  /** The clients the successful attempts in `p` returned, in order. */
  function Clients<C, E>(p: seq<Attempt<C, E>>): seq<C>
  {
    if p == [] then []
    else (if p[0].Connect? && p[0].result.Ok? then [p[0].result.client] else []) + Clients(p[1..])
  }

  /** `|errs|` failed connects in a row, with the given errors. */
  function Failing<C, E>(errs: seq<E>): (p: seq<Attempt<C, E>>)
    ensures |p| == |errs|
    ensures forall k :: 0 <= k < |p| ==> p[k] == Connect(Err(errs[k]))
  {
    if errs == [] then [] else [Connect(Err(errs[0]))] + Failing(errs[1..])
  }

  /** The reference reading of a concatenation is the sum of the readings of its parts. */
  lemma ReadingDistributes<C, E>(p: seq<Attempt<C, E>>, q: seq<Attempt<C, E>>)
    ensures Resolutions(p + q) == Resolutions(p) + Resolutions(q)
    ensures Failures(p + q) == Failures(p) + Failures(q)
    ensures Clients(p + q) == Clients(p) + Clients(q)
  {
    ResolutionsDistribute(p, q);
    FailuresDistribute(p, q);
    ClientsDistribute(p, q);
  }

  lemma {:induction false} ResolutionsDistribute<C, E>(p: seq<Attempt<C, E>>, q: seq<Attempt<C, E>>)
    ensures Resolutions(p + q) == Resolutions(p) + Resolutions(q)
  {
    if p == [] {
      assert p + q == q;
    } else {
      assert (p + q)[0] == p[0];
      assert (p + q)[1..] == p[1..] + q;
      ResolutionsDistribute(p[1..], q);
    }
  }

  lemma {:induction false} FailuresDistribute<C, E>(p: seq<Attempt<C, E>>, q: seq<Attempt<C, E>>)
    ensures Failures(p + q) == Failures(p) + Failures(q)
  {
    if p == [] {
      assert p + q == q;
    } else {
      assert (p + q)[0] == p[0];
      assert (p + q)[1..] == p[1..] + q;
      FailuresDistribute(p[1..], q);
    }
  }

  lemma {:induction false} ClientsDistribute<C, E>(p: seq<Attempt<C, E>>, q: seq<Attempt<C, E>>)
    ensures Clients(p + q) == Clients(p) + Clients(q)
  {
    if p == [] {
      assert p + q == q;
    } else {
      assert (p + q)[0] == p[0];
      assert (p + q)[1..] == p[1..] + q;
      ClientsDistribute(p[1..], q);
    }
  }

  /** The connect-loop state after the cancel-free attempts `p`, none of
      which resolved the last config, according to the reference reading. */
  function Advance<C, E>(s: State<C, E>, p: seq<Attempt<C, E>>): State<C, E>
    requires s.phase.Connecting?
  {
    s.(phase := Connecting(s.phase.config + Resolutions(p)),
       backends := s.backends + Clients(p),
       retries := s.retries + Failures(p))
  }

  /** One cancel-free attempt that does not resolve the last config, read
      through the reference functions. */
  lemma StepReading<C, E>(n: nat, build: BuildResult<E>, s: State<C, E>, a: Attempt<C, E>)
    requires Reachable(n, build, s) && s.phase.Connecting?
    requires !a.Cancelled? && s.phase.config + Resolutions([a]) < n
    ensures ConnectStep(n, build, s, a) == Advance(s, [a])
  {
    assert [a][0] == a && [a][1..] == [];
    assert Resolutions([a]) == (if Resolves(a) then 1 else 0);
    assert Failures([a]) == (if a.Connect? && a.result.Err? then 1 else 0);
    match a.result
    case Ok(c) =>
      assert Clients([a]) == [c];
    case ErrNilConfig =>
      assert Clients([a]) == [];
      assert s.backends + [] == s.backends;
    case Err(_) =>
      assert Clients([a]) == [];
      assert s.backends + [] == s.backends;
  }

  lemma AdvanceTwice<C, E>(s: State<C, E>, a: Attempt<C, E>, p: seq<Attempt<C, E>>)
    requires s.phase.Connecting?
    ensures Advance(Advance(s, [a]), p) == Advance(s, [a] + p)
  {
    ReadingDistributes([a], p);
    assert (s.backends + Clients([a])) + Clients(p) == s.backends + Clients([a] + p);
  }

  /** A step that stays in the connect loop, followed by attempts the
      reference reading already accounts for, is accounted for as a whole. */
  lemma StepExtendsReading<C, E>(n: nat, build: BuildResult<E>, s: State<C, E>, a: Attempt<C, E>,
                                 tail: seq<Attempt<C, E>>, r: State<C, E>)
    requires Reachable(n, build, s) && s.phase.Connecting?
    requires ConnectStep(n, build, s, a).phase.Connecting?
    requires CancelFree(tail) && r == Advance(ConnectStep(n, build, s, a), tail)
    ensures CancelFree([a] + tail) && r == Advance(s, [a] + tail)
  {
    assert !a.Cancelled?;
    assert Resolutions([a]) == (if Resolves(a) then 1 else 0) by {
      assert [a][0] == a && [a][1..] == [];
    }
    StepReading(n, build, s, a);
    AdvanceTwice(s, a, tail);
    forall k | 0 <= k < |[a] + tail| ensures !([a] + tail)[k].Cancelled? {
      if k > 0 { assert ([a] + tail)[k] == tail[k - 1]; }
    }
  }

  /** The state the goroutine is in after it has consumed the cancel-free
      attempts `p` without resolving its last config: it is trying config
      number `Resolutions(p)` past the one it started on, so configs are
      visited in declaration order and a config is tried only after every
      earlier one was resolved. */
  lemma {:induction false} ConsumePrefix<C, E>(n: nat, p: seq<Attempt<C, E>>, rest: seq<Attempt<C, E>>,
                                               build: BuildResult<E>, s: State<C, E>)
    requires Reachable(n, build, s) && s.phase.Connecting?
    requires CancelFree(p) && s.phase.config + Resolutions(p) < n
    ensures Drive(n, p + rest, build, s) == Drive(n, rest, build, Advance(s, p))
  {
    if p == [] {
      assert p + rest == rest;
      assert s.backends + Clients(p) == s.backends;
      assert Advance(s, p) == s;
    } else {
      var a, p' := p[0], p[1..];
      assert p == [a] + p';
      assert p + rest == [a] + (p' + rest);
      CancelFreeTail(p);
      ReadingDistributes([a], p');
      StepReading(n, build, s, a);
      DriveStep(n, a, p' + rest, build, s);
      ConsumePrefix(n, p', rest, build, Advance(s, [a]));
      AdvanceTwice(s, a, p');
    }
  }

  /** One pass through the retry loop, then the rest of the script. */
  lemma DriveStep<C, E>(n: nat, a: Attempt<C, E>, rest: seq<Attempt<C, E>>, build: BuildResult<E>, s: State<C, E>)
    requires Reachable(n, build, s) && s.phase.Connecting?
    ensures Drive(n, [a] + rest, build, s) == Drive(n, rest, build, ConnectStep(n, build, s, a))
  {
    assert ([a] + rest)[0] == a && ([a] + rest)[1..] == rest;
  }

  lemma CancelFreeTail<C, E>(p: seq<Attempt<C, E>>)
    requires CancelFree(p) && p != []
    ensures !p[0].Cancelled? && CancelFree(p[1..])
  {
    forall k | 0 <= k < |p[1..]| ensures !p[1..][k].Cancelled? {
      assert p[1..][k] == p[k + 1];
    }
  }

  /** A config that fails K times with errors other than the sentinel and then
      connects costs exactly K retries and appends exactly one client. */
  lemma {:induction false} RetryThenConnect<C, E>(n: nat, errs: seq<E>, c: C, rest: seq<Attempt<C, E>>,
                                                  build: BuildResult<E>, s: State<C, E>)
    requires Reachable(n, build, s) && s.phase.Connecting?
    ensures Drive(n, Failing(errs) + [Connect(Ok(c))] + rest, build, s)
         == Drive(n, rest, build, s.(phase := Next(s.phase.config + 1, n),
                                     backends := s.backends + [c],
                                     retries := s.retries + |errs|))
  {
    var script := Failing(errs) + [Connect(Ok(c))] + rest;
    if errs == [] {
      assert script == [Connect(Ok(c))] + rest;
      assert script[1..] == rest;
    } else {
      var s1 := ConnectStep(n, build, s, Connect(Err(errs[0])));
      assert script[0] == Connect(Err(errs[0]));
      assert script[1..] == Failing(errs[1..]) + [Connect(Ok(c))] + rest;
      RetryThenConnect(n, errs[1..], c, rest, build, s1);
    }
  }

  /** The sentinel is skipped: no retry, no client, on to the next config. */
  lemma {:induction false} SkipNilConfig<C, E>(n: nat, rest: seq<Attempt<C, E>>,
                                               build: BuildResult<E>, s: State<C, E>)
    requires Reachable(n, build, s) && s.phase.Connecting?
    ensures Drive(n, [Connect(ErrNilConfig)] + rest, build, s)
         == Drive(n, rest, build, s.(phase := Next(s.phase.config + 1, n)))
  {
    var script := [Connect(ErrNilConfig)] + rest;
    assert script[0] == Connect(ErrNilConfig) && script[1..] == rest;
  }

  /** Cancellation seen before an attempt, while configs remain unresolved:
      the list accumulated so far is closed once and the goroutine returns
      without calling `NewResource` or `Monitor`. */
  lemma {:induction false} RunCancelled<C, E>(n: nat, p: seq<Attempt<C, E>>, rest: seq<Attempt<C, E>>,
                                              build: BuildResult<E>)
    requires CancelFree(p) && Resolutions(p) < n
    ensures Run(n, p + [Cancelled] + rest, build)
         == State(Returned(CancelledExit), Clients(p), Failures(p), 1, false, false, false)
  {
    var s := Start<C, E>(n, build);
    assert p + [Cancelled] + rest == p + ([Cancelled] + rest);
    ConsumePrefix(n, p, [Cancelled] + rest, build, s);
    var tail := [Cancelled] + rest;
    assert tail[0] == Cancelled && tail[1..] == rest;
  }

  /** A script that ends before the last config is resolved, without a
      cancellation: the goroutine is still in its connect loop, nothing was
      closed and nothing after the loop was called. */
  lemma {:induction false} RunPending<C, E>(n: nat, script: seq<Attempt<C, E>>, build: BuildResult<E>)
    requires CancelFree(script) && Resolutions(script) < n
    ensures Run(n, script, build)
         == State(Connecting(Resolutions(script)), Clients(script), Failures(script), 0, false, false, false)
  {
    assert script + [] == script;
    ConsumePrefix(n, script, [], build, Start<C, E>(n, build));
  }

  /** The state after the connect loop resolved every config with the given
      clients and retries: `NewResource` failed and the goroutine returned,
      or `Monitor` was entered and either returned or is still blocked. */
  function Finished<C, E>(backends: seq<C>, retries: nat, build: BuildResult<E>): State<C, E>
  {
    match build
    case Built(true) => State(Returned(MonitorReturned), backends, retries, 1, true, true, true)
    case Built(false) => State(Watching, backends, retries, 0, true, true, true)
    case BuildError(e) => State(Returned(BuildFailed(e)), backends, retries, 1, true, true, false)
  }

  /** Once the cancel-free attempts `p` resolve the last config, the goroutine
      builds and monitors with exactly the clients `p` connected. The list is
      closed once, through the defer, when `NewResource` fails or `Monitor`
      returns, and stays open while `Monitor` is blocked. The connect loop
      consumes nothing after `p`: a cancellation that comes after the last
      config is not seen before `NewResource`, and reaches the goroutine only
      through the context handed to `Monitor`. */
  lemma {:induction false} RunCompletes<C, E>(n: nat, p: seq<Attempt<C, E>>, rest: seq<Attempt<C, E>>,
                                              build: BuildResult<E>)
    requires CancelFree(p) && Resolutions(p) == n
    requires p != [] ==> Resolutions(p[..|p| - 1]) < n
    ensures Run(n, p + rest, build) == Finished(Clients(p), Failures(p), build)
  {
    var s := Start<C, E>(n, build);
    if p == [] {
      assert p + rest == rest;
      DriveFromBuilding(n, rest, build, s);
    } else {
      var q, last := p[..|p| - 1], p[|p| - 1];
      assert p == q + [last];
      assert CancelFree(q) && !last.Cancelled? by {
        forall k | 0 <= k < |q| ensures !q[k].Cancelled? {
          assert q[k] == p[k];
        }
        assert last == p[|p| - 1];
      }
      ReadingDistributes(q, [last]);
      assert [last][1..] == [];
      assert Resolves(last);
      assert p + rest == q + ([last] + rest);
      ConsumePrefix(n, q, [last] + rest, build, s);
      var s1 := Advance(s, q);
      DriveStep(n, last, rest, build, s1);
      var s2 := ConnectStep(n, build, s1, last);
      assert s2.backends == Clients(p) by {
        assert Clients([last]) == (if last.result.Ok? then [last.result.client] else []);
      }
      assert s2.phase == Building && s2.retries == Failures(p);
      DriveFromBuilding(n, rest, build, s2);
    }
  }

  /** From the end of the connect loop the script is no longer consulted. */
  lemma DriveFromBuilding<C, E>(n: nat, script: seq<Attempt<C, E>>, build: BuildResult<E>, s: State<C, E>)
    requires Reachable(n, build, s) && s.phase.Building?
    ensures Drive(n, script, build, s) == Finished(s.backends, s.retries, build)
  {
    var s1 := BuildStep(n, build, s);
    assert Drive(n, script, build, s) == Drive(n, script, build, s1);
    if build.Built? && build.monitorReturns {
      assert Drive(n, script, build, s1) == Drive(n, script, build, WatchStep(n, build, s1));
    }
  }
}
