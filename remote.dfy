/**
 * The remote servers and the bot's fail-fast command loops. The servers are an oracle:
 * the outcome of each connection or command may depend on everything the bot has sent
 * before it, which covers commands that change the remote state for later ones.
 */
module Remote {
  import opened Options
  import opened Text
  import opened Executor

  /** One interaction with a server: a bare login test, or one command run. */
  datatype Event = Connect(host: Host) | Run(host: Host, command: string)

  /** The servers' answer to an event, given the events that came before it. */
  type Oracle = (seq<Event>, Event) -> SshOutcome

  /** The string `execute_ssh_command` returns for `command` after the history h. */
  function ResultOf(o: Oracle, h: seq<Event>, host: Host, command: string): string {
    ShapeResult(host.address, command, o(h, Run(host, command)))
  }

  /** The events of running the commands on one host, in list order. */
  function Runs(host: Host, cmds: seq<string>): seq<Event> {
    seq(|cmds|, i requires 0 <= i < |cmds| => Run(host, cmds[i]))
  }

  /** The result of the j-th command when all the earlier ones have run. */
  function ResultAt(o: Oracle, h: seq<Event>, host: Host, cmds: seq<string>, j: nat): string
    requires j < |cmds|
  {
    ResultOf(o, h + Runs(host, cmds[..j]), host, cmds[j])
  }

  /** Every command of the list, run in order, returns a result free of the failure mark. */
  predicate AllSucceed(o: Oracle, h: seq<Event>, host: Host, cmds: seq<string>) {
    forall j :: 0 <= j < |cmds| ==> !IsFailure(ResultAt(o, h, host, cmds, j))
  }

  /** The k-th command is the first whose result carries the failure mark. */
  predicate FirstFailureAt(o: Oracle, h: seq<Event>, host: Host, cmds: seq<string>, k: nat) {
    k < |cmds| && IsFailure(ResultAt(o, h, host, cmds, k))
    && forall j :: 0 <= j < k ==> !IsFailure(ResultAt(o, h, host, cmds, j))
  }

  /** Where a loop stopped: the history after it and the failing result, if there was one. */
  datatype BatchEnd = BatchEnd(log: seq<Event>, failure: Option<string>)

  /**
   * `for cmd in cmds: result = execute_ssh_command(...); if "خطا" in result: ... return`
   * on one host.
   */
  function Batch(o: Oracle, h: seq<Event>, host: Host, cmds: seq<string>): BatchEnd
    decreases |cmds|
  {
    if cmds == [] then BatchEnd(h, None)
    else
      var r := ResultOf(o, h, host, cmds[0]);
      var h' := h + [Run(host, cmds[0])];
      if IsFailure(r) then BatchEnd(h', Some(r)) else Batch(o, h', host, cmds[1..])
  }

  /** The loop over the Iran server, then, unless it stopped, the loop over the Kharej server. */
  function Both(o: Oracle, h: seq<Event>, a: Host, b: Host, cmdsA: seq<string>, cmdsB: seq<string>): BatchEnd {
    var first := Batch(o, h, a, cmdsA);
    if first.failure.Some? then first else Batch(o, first.log, b, cmdsB)
  }

  lemma RunsCons(host: Host, cmds: seq<string>, k: nat)
    requires k < |cmds|
    ensures [Run(host, cmds[0])] + Runs(host, cmds[1..][..k]) == Runs(host, cmds[..k + 1])
  {
  }

  /** Running the first command and then the rest is running the whole list. */
  lemma ShiftResult(o: Oracle, h: seq<Event>, host: Host, cmds: seq<string>, j: nat)
    requires j + 1 < |cmds|
    ensures ResultAt(o, h + [Run(host, cmds[0])], host, cmds[1..], j) == ResultAt(o, h, host, cmds, j + 1)
  {
    RunsCons(host, cmds, j);
    assert h + [Run(host, cmds[0])] + Runs(host, cmds[1..][..j]) == h + Runs(host, cmds[..j + 1]);
  }

  lemma FirstResult(o: Oracle, h: seq<Event>, host: Host, cmds: seq<string>)
    requires cmds != []
    ensures ResultAt(o, h, host, cmds, 0) == ResultOf(o, h, host, cmds[0])
  {
    assert cmds[..0] == [] && h + Runs(host, []) == h;
  }

  lemma AllSucceedCons(o: Oracle, h: seq<Event>, host: Host, cmds: seq<string>)
    requires cmds != []
    ensures AllSucceed(o, h, host, cmds) <==>
              !IsFailure(ResultOf(o, h, host, cmds[0])) && AllSucceed(o, h + [Run(host, cmds[0])], host, cmds[1..])
  {
    FirstResult(o, h, host, cmds);
    forall j | 0 <= j < |cmds| - 1 {
      ShiftResult(o, h, host, cmds, j);
    }
    if !IsFailure(ResultOf(o, h, host, cmds[0])) && AllSucceed(o, h + [Run(host, cmds[0])], host, cmds[1..]) {
      forall j | 0 <= j < |cmds| ensures !IsFailure(ResultAt(o, h, host, cmds, j)) {
        if j > 0 { ShiftResult(o, h, host, cmds, j - 1); }
      }
    }
  }

  lemma FirstFailureCons(o: Oracle, h: seq<Event>, host: Host, cmds: seq<string>, k: nat)
    requires cmds != [] && !IsFailure(ResultOf(o, h, host, cmds[0]))
    ensures FirstFailureAt(o, h + [Run(host, cmds[0])], host, cmds[1..], k) <==> FirstFailureAt(o, h, host, cmds, k + 1)
  {
    FirstResult(o, h, host, cmds);
    forall j | 0 <= j < |cmds| - 1 {
      ShiftResult(o, h, host, cmds, j);
    }
    if FirstFailureAt(o, h + [Run(host, cmds[0])], host, cmds[1..], k) {
      forall j | 0 <= j < k + 1 ensures !IsFailure(ResultAt(o, h, host, cmds, j)) {
        if j > 0 { ShiftResult(o, h, host, cmds, j - 1); }
      }
    }
  }

  /** A failure found in the rest of the list, after a first command that succeeded, is one of the whole list. */
  lemma LaterFailure(o: Oracle, h: seq<Event>, host: Host, cmds: seq<string>, k: nat, r: string, log: seq<Event>)
    requires cmds != [] && !IsFailure(ResultOf(o, h, host, cmds[0]))
    requires FirstFailureAt(o, h + [Run(host, cmds[0])], host, cmds[1..], k)
    requires r == ResultAt(o, h + [Run(host, cmds[0])], host, cmds[1..], k)
    requires log == h + [Run(host, cmds[0])] + Runs(host, cmds[1..][..k + 1])
    ensures FirstFailureAt(o, h, host, cmds, k + 1) && r == ResultAt(o, h, host, cmds, k + 1)
            && log == h + Runs(host, cmds[..k + 2])
  {
    FirstFailureCons(o, h, host, cmds, k);
    ShiftResult(o, h, host, cmds, k);
    RunsCons(host, cmds, k + 1);
  }

  /**
   * The loop runs the commands in list order, stops right after the first result that
   * carries the failure mark and returns that result, and runs every command when none does.
   */
  lemma {:induction false} BatchSpec(o: Oracle, h: seq<Event>, host: Host, cmds: seq<string>)
    ensures var e := Batch(o, h, host, cmds);
            (e.failure.None? <==> AllSucceed(o, h, host, cmds))
            && (e.failure.None? ==> e.log == h + Runs(host, cmds))
            && (e.failure.Some? ==>
                  exists k: nat :: FirstFailureAt(o, h, host, cmds, k)
                                   && e.failure.value == ResultAt(o, h, host, cmds, k)
                                   && e.log == h + Runs(host, cmds[..k + 1]))
    decreases |cmds|
  {
    if cmds != [] {
      var e := Batch(o, h, host, cmds);
      var h' := h + [Run(host, cmds[0])];
      FirstResult(o, h, host, cmds);
      AllSucceedCons(o, h, host, cmds);
      if IsFailure(ResultOf(o, h, host, cmds[0])) {
        assert FirstFailureAt(o, h, host, cmds, 0);
        RunsCons(host, cmds, 0);
        assert e.log == h + Runs(host, cmds[..1]);
      } else {
        BatchSpec(o, h', host, cmds[1..]);
        if e.failure.None? {
          assert [Run(host, cmds[0])] + Runs(host, cmds[1..]) == Runs(host, cmds);
        } else {
          var k: nat :| FirstFailureAt(o, h', host, cmds[1..], k)
                        && e.failure.value == ResultAt(o, h', host, cmds[1..], k)
                        && e.log == h' + Runs(host, cmds[1..][..k + 1]);
          LaterFailure(o, h, host, cmds, k, e.failure.value, e.log);
        }
      }
    }
  }

  /** The events of a two-host run: k commands on the first host, then m on the second. */
  function Interleaving(a: Host, b: Host, cmdsA: seq<string>, cmdsB: seq<string>, k: nat, m: nat): seq<Event>
    requires k <= |cmdsA| && m <= |cmdsB|
  {
    Runs(a, cmdsA[..k]) + Runs(b, cmdsB[..m])
  }

  /** The two-host loop succeeds exactly when every command on both hosts succeeds. */
  lemma BothSucceedsIff(o: Oracle, h: seq<Event>, a: Host, b: Host, cmdsA: seq<string>, cmdsB: seq<string>)
    ensures Both(o, h, a, b, cmdsA, cmdsB).failure.None? <==>
              AllSucceed(o, h, a, cmdsA) && AllSucceed(o, h + Runs(a, cmdsA), b, cmdsB)
  {
    var first := Batch(o, h, a, cmdsA);
    BatchSpec(o, h, a, cmdsA);
    if first.failure.None? {
      BatchSpec(o, first.log, b, cmdsB);
    }
  }

  lemma NoSecondCommands(a: Host, b: Host, cmdsA: seq<string>, cmdsB: seq<string>, k: nat)
    requires k <= |cmdsA|
    ensures Interleaving(a, b, cmdsA, cmdsB, k, 0) == Runs(a, cmdsA[..k])
  {
    assert cmdsB[..0] == [];
  }

  lemma AllFirstCommands(a: Host, b: Host, cmdsA: seq<string>, cmdsB: seq<string>, m: nat)
    requires m <= |cmdsB|
    ensures Interleaving(a, b, cmdsA, cmdsB, |cmdsA|, m) == Runs(a, cmdsA) + Runs(b, cmdsB[..m])
  {
    assert cmdsA[..|cmdsA|] == cmdsA;
  }

  /**
   * A two-host history: k commands ran on the first host, then m on the second, and the
   * second host was only contacted after the whole first list ran and succeeded.
   */
  predicate Ordered(o: Oracle, h: seq<Event>, a: Host, b: Host, cmdsA: seq<string>, cmdsB: seq<string>, log: seq<Event>) {
    exists k: nat, m: nat :: k <= |cmdsA| && m <= |cmdsB|
                             && log == h + Interleaving(a, b, cmdsA, cmdsB, k, m)
                             && (m > 0 ==> k == |cmdsA| && AllSucceed(o, h, a, cmdsA))
  }

  lemma FirstHostStopped(o: Oracle, h: seq<Event>, a: Host, b: Host, cmdsA: seq<string>, cmdsB: seq<string>)
    requires Batch(o, h, a, cmdsA).failure.Some?
    ensures Ordered(o, h, a, b, cmdsA, cmdsB, Batch(o, h, a, cmdsA).log)
  {
    BatchSpec(o, h, a, cmdsA);
    var k: nat :| FirstFailureAt(o, h, a, cmdsA, k) && Batch(o, h, a, cmdsA).log == h + Runs(a, cmdsA[..k + 1]);
    NoSecondCommands(a, b, cmdsA, cmdsB, k + 1);
  }

  lemma OrderedWitness(o: Oracle, h: seq<Event>, a: Host, b: Host, cmdsA: seq<string>, cmdsB: seq<string>,
                       log: seq<Event>, m: nat)
    requires m <= |cmdsB| && AllSucceed(o, h, a, cmdsA)
    requires log == h + Runs(a, cmdsA) + Runs(b, cmdsB[..m])
    ensures Ordered(o, h, a, b, cmdsA, cmdsB, log)
  {
    AllFirstCommands(a, b, cmdsA, cmdsB, m);
    assert log == h + Interleaving(a, b, cmdsA, cmdsB, |cmdsA|, m);
  }

  lemma SecondHostRan(o: Oracle, h: seq<Event>, a: Host, b: Host, cmdsA: seq<string>, cmdsB: seq<string>)
    requires Batch(o, h, a, cmdsA).failure.None?
    ensures Ordered(o, h, a, b, cmdsA, cmdsB, Batch(o, Batch(o, h, a, cmdsA).log, b, cmdsB).log)
  {
    BatchSpec(o, h, a, cmdsA);
    var first := Batch(o, h, a, cmdsA);
    var e := Batch(o, first.log, b, cmdsB);
    BatchSpec(o, first.log, b, cmdsB);
    if e.failure.Some? {
      var m: nat :| FirstFailureAt(o, first.log, b, cmdsB, m) && e.log == first.log + Runs(b, cmdsB[..m + 1]);
      OrderedWitness(o, h, a, b, cmdsA, cmdsB, e.log, m + 1);
    } else {
      assert cmdsB[..|cmdsB|] == cmdsB;
      OrderedWitness(o, h, a, b, cmdsA, cmdsB, e.log, |cmdsB|);
    }
  }

  /**
   * Every command on the first host runs before any on the second, and the second host is
   * only contacted after the whole first list ran and succeeded.
   */
  lemma BothOrder(o: Oracle, h: seq<Event>, a: Host, b: Host, cmdsA: seq<string>, cmdsB: seq<string>)
    ensures Ordered(o, h, a, b, cmdsA, cmdsB, Both(o, h, a, b, cmdsA, cmdsB).log)
  {
    if Batch(o, h, a, cmdsA).failure.Some? {
      FirstHostStopped(o, h, a, b, cmdsA, cmdsB);
    } else {
      SecondHostRan(o, h, a, b, cmdsA, cmdsB);
    }
  }

  /** The connection to the servers: the oracle that answers, and everything sent so far. */
  class Channel {
    const oracle: Oracle
    var log: seq<Event>

    constructor (oracle: Oracle, log: seq<Event>)
      ensures this.oracle == oracle && this.log == log
    {
      this.oracle := oracle;
      this.log := log;
    }

    /** The password stages' `ssh.connect` test: true when no exception was raised. */
    method TestConnection(host: Host) returns (ok: bool)
      modifies this
      ensures log == old(log) + [Connect(host)]
      ensures ok == oracle(old(log), Connect(host)).Finished?
    {
      ok := oracle(log, Connect(host)).Finished?;
      log := log + [Connect(host)];
    }

    /** `execute_ssh_command`. */
    method Execute(host: Host, command: string) returns (r: string)
      modifies this
      ensures log == old(log) + [Run(host, command)]
      ensures r == ResultOf(oracle, old(log), host, command)
    {
      r := ResultOf(oracle, log, host, command);
      log := log + [Run(host, command)];
    }

    /** One fail-fast `for cmd in cmds` loop on one host. */
    method RunBatch(host: Host, cmds: seq<string>) returns (failure: Option<string>)
      modifies this
      ensures BatchEnd(log, failure) == Batch(oracle, old(log), host, cmds)
    {
      var i := 0;
      while i < |cmds|
        invariant 0 <= i <= |cmds|
        invariant Batch(oracle, old(log), host, cmds) == Batch(oracle, log, host, cmds[i..])
      {
        assert cmds[i..][0] == cmds[i] && cmds[i..][1..] == cmds[i + 1..];
        var r := Execute(host, cmds[i]);
        if IsFailure(r) {
          return Some(r);
        }
        i := i + 1;
      }
      return None;
    }

    /** The loop over the Iran server followed, unless it stopped, by the loop over the Kharej server. */
    method RunOnBoth(a: Host, b: Host, cmdsA: seq<string>, cmdsB: seq<string>) returns (failure: Option<string>)
      modifies this
      ensures BatchEnd(log, failure) == Both(oracle, old(log), a, b, cmdsA, cmdsB)
    {
      failure := RunBatch(a, cmdsA);
      if failure.None? {
        failure := RunBatch(b, cmdsB);
      }
    }
  }
}
