/**
 * `ping_ssh`: the three remote checks behind the tunnel status report, and how the ping
 * output is read with two regular-expression searches.
 */
module Health {
  import opened Options
  import opened Text
  import opened Executor
  import opened Remote
  import opened Roles

  /** Why a status check gave up before reading any ping output. */
  datatype Problem = ModuleNotLoaded | AddressNotSet(address: string, device: string) | NoPingOutput

  /** `{"status": ...}`: connected with the average round trip, disconnected, or an error. */
  datatype Health = Connected(rtt: string) | Disconnected(output: string) | Error(problem: Problem)

  const ModuleCheck: string := "lsmod | grep ip6gre"

  /** The interface whose addresses are checked, chosen by the address that will be pinged. */
  function Interface(target: string): string {
    if target == "172.20.40.2" then "GRE6Tun_To_IR" else "GRE6Tun_To_KH"
  }

  function InterfaceCheck(target: string): string {
    "ip addr show " + Interface(target) + " | grep " + target
  }

  function PingCommand(target: string): string {
    "ping -c 4 " + target
  }

  /** Pinging the other end's GRE address checks this end's own GRE interface. */
  lemma InterfaceOfPeer(side: Side)
    ensures Interface(GreAddress(Peer(side))) == GreInterface(side)
  {
  }

  // ---------------------------------------------------------------------------
  // `re.search`: the leftmost position where a pattern matches.

  /** The position where a pattern stops matching at i, and the text of group 1 there. */
  type Matcher = (string, nat) -> Option<string>

  /** The leftmost position at or after i where the pattern matches. */
  function Search(m: Matcher, s: string, i: nat): (r: Option<nat>)
    requires i <= |s|
    decreases |s| - i
    ensures r.Some? ==> i <= r.value <= |s| && m(s, r.value).Some?
                        && forall k :: i <= k < r.value ==> m(s, k).None?
    ensures r.None? ==> forall k :: i <= k <= |s| ==> m(s, k).None?
  {
    if m(s, i).Some? then Some(i) else if i == |s| then None else Search(m, s, i + 1)
  }

  /** The pattern matches at k and nowhere before it. */
  predicate LeftmostAt(m: Matcher, s: string, k: nat) {
    k <= |s| && m(s, k).Some? && forall j :: 0 <= j < k ==> m(s, j).None?
  }

  /** The search finds exactly the leftmost match. */
  lemma SearchLeftmost(m: Matcher, s: string, k: nat)
    ensures Search(m, s, 0) == Some(k) <==> LeftmostAt(m, s, k)
  {
  }

  /** The end of the longest run of decimal digits starting at i. */
  function DigitRunEnd(s: string, i: nat): (j: nat)
    requires i <= |s|
    decreases |s| - i
    ensures i <= j <= |s| && (j == |s| || !IsDecimal(s[j]))
    ensures forall k :: i <= k < j ==> IsDecimal(s[k])
  {
    if i < |s| && IsDecimal(s[i]) then DigitRunEnd(s, i + 1) else i
  }

  predicate IsDotDigit(c: char) {
    IsDecimal(c) || c == '.'
  }

  /** The end of the longest run of `[\d.]` characters starting at i. */
  function DotDigitRunEnd(s: string, i: nat): (j: nat)
    requires i <= |s|
    decreases |s| - i
    ensures i <= j <= |s| && (j == |s| || !IsDotDigit(s[j]))
    ensures forall k :: i <= k < j ==> IsDotDigit(s[k])
  {
    if i < |s| && IsDotDigit(s[i]) then DotDigitRunEnd(s, i + 1) else i
  }

  const LossSuffix: string := "% packet loss"

  /**
   * `(\d+)% packet loss` tried at position i. The digit run must be the longest one: a
   * shorter run is followed by another digit, not by "%".
   */
  function LossAt(s: string, i: nat): (r: Option<string>)
    ensures r.Some? ==> |r.value| > 0 && AllDecimal(r.value)
                        && i + |r.value| <= |s| && s[i..i + |r.value|] == r.value
                        && OccursAt(s, LossSuffix, i + |r.value|)
  {
    if i > |s| then None
    else
      var j := DigitRunEnd(s, i);
      if i < j && OccursAt(s, LossSuffix, j) then Some(s[i..j]) else None
  }

  const RttPrefix: string := "rtt min/avg/max/mdev = "

  /**
   * `rtt min/avg/max/mdev = [\d.]+/([\d.]+)/[\d.]+/[\d.]+ ms` tried at position i. Each run
   * is followed by "/" or " ", neither of which is in `[\d.]`, so each is the longest run.
   */
  function RttAt(s: string, i: nat): (r: Option<string>)
    ensures r.Some? ==> |r.value| > 0 && forall k :: 0 <= k < |r.value| ==> IsDotDigit(r.value[k])
  {
    if i > |s| || !OccursAt(s, RttPrefix, i) then None else RttFields(s, i + |RttPrefix|)
  }

  /** `[\d.]+/([\d.]+)/[\d.]+/[\d.]+ ms` tried at position a, right after the prefix. */
  function RttFields(s: string, a: nat): (r: Option<string>)
    ensures r.Some? ==> |r.value| > 0 && forall k :: 0 <= k < |r.value| ==> IsDotDigit(r.value[k])
  {
    if a > |s| then None
    else
      var b := DotDigitRunEnd(s, a);
      if !(a < b < |s| && s[b] == '/') then None
      else
        var c := DotDigitRunEnd(s, b + 1);
        if !(b + 1 < c < |s| && s[c] == '/') then None
        else
          var d := DotDigitRunEnd(s, c + 1);
          if !(c + 1 < d < |s| && s[d] == '/') then None
          else
            var e := DotDigitRunEnd(s, d + 1);
            if d + 1 < e && OccursAt(s, " ms", e) then Some(s[b + 1..c]) else None
  }

  /**
   * How `ping_ssh` reads a non-empty ping output, or the error for an empty one. The round
   * trip reported when connected is "N/A" or a non-empty run of digits and dots.
   */
  function Classify(output: string): (r: Health)
    ensures r.Connected? ==> r.rtt == "N/A" || (|r.rtt| > 0 && forall k :: 0 <= k < |r.rtt| ==> IsDotDigit(r.rtt[k]))
    ensures r.Error? ==> r.problem == NoPingOutput
  {
    if output == "" then Error(NoPingOutput)
    else
      match Search(LossAt, output, 0)
      case None => Disconnected(output)
      case Some(k) =>
        if Value(LossAt(output, k).value) == 0 then
          match Search(RttAt, output, 0)
          case Some(j) => Connected(RttAt(output, j).value)
          case None => Connected("N/A")
        else Disconnected(output)
  }

  /** The leftmost packet-loss match reports no loss. */
  ghost predicate NoLossReported(output: string) {
    exists k :: LeftmostAt(LossAt, output, k) && Value(LossAt(output, k).value) == 0
  }

  /**
   * Non-empty output is read as connected exactly when the leftmost packet-loss match
   * reports zero, and as disconnected otherwise; only empty output is an error.
   */
  lemma ClassifyIff(output: string)
    ensures Classify(output).Error? <==> output == ""
    ensures Classify(output).Connected? <==> output != "" && NoLossReported(output)
    ensures Classify(output).Disconnected? <==> output != "" && !NoLossReported(output)
  {
    match Search(LossAt, output, 0)
    case None =>
    case Some(k) =>
      SearchLeftmost(LossAt, output, k);
      forall j | LeftmostAt(LossAt, output, j) ensures j == k {
        SearchLeftmost(LossAt, output, j);
      }
  }

  /**
   * Connected output reports the average field of the leftmost round-trip match, and "N/A"
   * exactly when the round-trip pattern matches nowhere.
   */
  lemma ClassifyRtt(output: string)
    requires output != "" && NoLossReported(output)
    ensures Classify(output) == Connected("N/A") <==> forall k: nat :: RttAt(output, k).None?
    ensures forall k :: LeftmostAt(RttAt, output, k) ==> Classify(output) == Connected(RttAt(output, k).value)
  {
    ClassifyIff(output);
    var k :| LeftmostAt(LossAt, output, k) && Value(LossAt(output, k).value) == 0;
    SearchLeftmost(LossAt, output, k);
    match Search(RttAt, output, 0)
    case None =>
    case Some(j) =>
      assert 'N' !in RttAt(output, j).value by {
        assert !IsDotDigit('N');
      }
      forall k' | LeftmostAt(RttAt, output, k') ensures k' == j {
        SearchLeftmost(RttAt, output, k');
      }
  }

  predicate DotDigits(f: string) {
    |f| > 0 && forall k :: 0 <= k < |f| ==> IsDotDigit(f[k])
  }

  /** The round-trip line of `ping`: minimum, average, maximum and deviation. */
  function RttLine(min: string, avg: string, max: string, mdev: string): string {
    RttPrefix + min + "/" + avg + "/" + max + "/" + mdev + " ms"
  }

  /**
   * Wherever a round-trip line with four runs of digits and dots stands, the round-trip
   * pattern matches at its start and reads the second run, the average.
   */
  lemma RttReadsAverage(before: string, min: string, avg: string, max: string, mdev: string, after: string)
    requires DotDigits(min) && DotDigits(avg) && DotDigits(max) && DotDigits(mdev)
    ensures RttAt(before + RttLine(min, avg, max, mdev) + after, |before|) == Some(avg)
  {
    var b := |before| + |RttPrefix| + |min|;
    var c := b + 1 + |avg|;
    var d := c + 1 + |max|;
    var e := d + 1 + |mdev|;
    LineRuns(before, min, avg, max, mdev, after, b, c, d, e);
    RttAtRuns(before + RttLine(min, avg, max, mdev) + after, |before|, b, c, d, e, avg);
  }

  /** Where each run of a round-trip line ends, and that the second one is the average. */
  lemma LineRuns(before: string, min: string, avg: string, max: string, mdev: string, after: string,
                 b: nat, c: nat, d: nat, e: nat)
    requires DotDigits(min) && DotDigits(avg) && DotDigits(max) && DotDigits(mdev)
    requires b == |before| + |RttPrefix| + |min| && c == b + 1 + |avg|
    requires d == c + 1 + |max| && e == d + 1 + |mdev|
    ensures RunsAt(before + RttLine(min, avg, max, mdev) + after, |before|, b, c, d, e, avg)
  {
    RttPrefixAt(before, min, avg, max, mdev, after);
    MinRun(before, min, avg, max, mdev, after);
    AvgRun(before, min, avg, max, mdev, after);
    MaxRun(before, min, avg, max, mdev, after);
    MdevRun(before, min, avg, max, mdev, after);
  }

  lemma MinRun(before: string, min: string, avg: string, max: string, mdev: string, after: string)
    requires DotDigits(min)
    ensures var s := before + RttLine(min, avg, max, mdev) + after;
            var b := |before| + |RttPrefix| + |min|;
            b < |s| && DotDigitRunEnd(s, |before| + |RttPrefix|) == b && s[b] == '/'
  {
    var s := before + RttLine(min, avg, max, mdev) + after;
    RttAtMin(before, min, avg, max, mdev, after);
    FieldEnd(s, before + RttPrefix, min, '/', avg + "/" + max + "/" + mdev + " ms" + after);
  }

  lemma AvgRun(before: string, min: string, avg: string, max: string, mdev: string, after: string)
    requires DotDigits(avg)
    ensures var s := before + RttLine(min, avg, max, mdev) + after;
            var b := |before| + |RttPrefix| + |min|;
            var c := b + 1 + |avg|;
            c < |s| && DotDigitRunEnd(s, b + 1) == c && s[c] == '/' && s[b + 1..c] == avg
  {
    var s := before + RttLine(min, avg, max, mdev) + after;
    RttAtAvg(before, min, avg, max, mdev, after);
    FieldEnd(s, before + RttPrefix + min + "/", avg, '/', max + "/" + mdev + " ms" + after);
  }

  lemma MaxRun(before: string, min: string, avg: string, max: string, mdev: string, after: string)
    requires DotDigits(max)
    ensures var s := before + RttLine(min, avg, max, mdev) + after;
            var c := |before| + |RttPrefix| + |min| + 1 + |avg|;
            var d := c + 1 + |max|;
            d < |s| && DotDigitRunEnd(s, c + 1) == d && s[d] == '/'
  {
    var s := before + RttLine(min, avg, max, mdev) + after;
    RttAtMax(before, min, avg, max, mdev, after);
    FieldEnd(s, before + RttPrefix + min + "/" + avg + "/", max, '/', mdev + " ms" + after);
  }

  lemma MdevRun(before: string, min: string, avg: string, max: string, mdev: string, after: string)
    requires DotDigits(mdev)
    ensures var s := before + RttLine(min, avg, max, mdev) + after;
            var d := |before| + |RttPrefix| + |min| + 1 + |avg| + 1 + |max|;
            var e := d + 1 + |mdev|;
            e <= |s| && DotDigitRunEnd(s, d + 1) == e && OccursAt(s, " ms", e)
  {
    var s := before + RttLine(min, avg, max, mdev) + after;
    var h4 := before + RttPrefix + min + "/" + avg + "/" + max + "/";
    RttAtMdev(before, min, avg, max, mdev, after);
    FieldEnd(s, h4, mdev, ' ', "ms" + after);
    Layout(h4 + mdev, " ms", after);
  }

  /** The round-trip pattern's pieces at i: the prefix, then runs ending at b, c, d and e. */
  predicate RunsAt(s: string, i: nat, b: nat, c: nat, d: nat, e: nat, avg: string)
  {
    && OccursAt(s, RttPrefix, i)
    && i + |RttPrefix| < b < |s| && DotDigitRunEnd(s, i + |RttPrefix|) == b && s[b] == '/'
    && b + 1 < c < |s| && DotDigitRunEnd(s, b + 1) == c && s[c] == '/'
    && c + 1 < d < |s| && DotDigitRunEnd(s, c + 1) == d && s[d] == '/'
    && d + 1 < e <= |s| && DotDigitRunEnd(s, d + 1) == e && OccursAt(s, " ms", e)
    && s[b + 1..c] == avg
  }

  lemma RttAtRuns(s: string, i: nat, b: nat, c: nat, d: nat, e: nat, avg: string)
    requires RunsAt(s, i, b, c, d, e, avg)
    ensures RttAt(s, i) == Some(avg)
  {
    FieldsRuns(s, i + |RttPrefix|, b, c, d, e);
  }

  lemma FieldsRuns(s: string, a: nat, b: nat, c: nat, d: nat, e: nat)
    requires a < b < |s| && DotDigitRunEnd(s, a) == b && s[b] == '/'
    requires b + 1 < c < |s| && DotDigitRunEnd(s, b + 1) == c && s[c] == '/'
    requires c + 1 < d < |s| && DotDigitRunEnd(s, c + 1) == d && s[d] == '/'
    requires d + 1 < e <= |s| && DotDigitRunEnd(s, d + 1) == e && OccursAt(s, " ms", e)
    ensures RttFields(s, a) == Some(s[b + 1..c])
  {
  }

  lemma RttPrefixAt(before: string, min: string, avg: string, max: string, mdev: string, after: string)
    ensures OccursAt(before + RttLine(min, avg, max, mdev) + after, RttPrefix, |before|)
  {
    var rest := min + "/" + avg + "/" + max + "/" + mdev + " ms" + after;
    assert before + RttLine(min, avg, max, mdev) + after == before + RttPrefix + rest;
    Layout(before, RttPrefix, rest);
  }

  lemma RttAtMin(before: string, min: string, avg: string, max: string, mdev: string, after: string)
    ensures before + RttLine(min, avg, max, mdev) + after
            == (before + RttPrefix) + min + ['/'] + (avg + "/" + max + "/" + mdev + " ms" + after)
  {
  }

  lemma RttAtAvg(before: string, min: string, avg: string, max: string, mdev: string, after: string)
    ensures before + RttLine(min, avg, max, mdev) + after
            == (before + RttPrefix + min + "/") + avg + ['/'] + (max + "/" + mdev + " ms" + after)
  {
  }

  lemma RttAtMax(before: string, min: string, avg: string, max: string, mdev: string, after: string)
    ensures before + RttLine(min, avg, max, mdev) + after
            == (before + RttPrefix + min + "/" + avg + "/") + max + ['/'] + (mdev + " ms" + after)
  {
  }

  lemma RttAtMdev(before: string, min: string, avg: string, max: string, mdev: string, after: string)
    ensures before + RttLine(min, avg, max, mdev) + after
            == (before + RttPrefix + min + "/" + avg + "/" + max + "/") + mdev + [' '] + ("ms" + after)
    ensures before + RttLine(min, avg, max, mdev) + after
            == (before + RttPrefix + min + "/" + avg + "/" + max + "/" + mdev) + " ms" + after
  {
  }

  /** A piece in the middle of a text stands right after what comes before it. */
  lemma Layout(x: string, y: string, z: string)
    ensures |x| + |y| <= |x + y + z| && (x + y + z)[|x|..|x| + |y|] == y
  {
  }

  /** The longest run of digits and dots at the end of x is a field that a separator outside the class ends. */
  lemma FieldEnd(s: string, x: string, f: string, sep: char, y: string)
    requires DotDigits(f) && !IsDotDigit(sep) && s == x + f + [sep] + y
    ensures DotDigitRunEnd(s, |x|) == |x| + |f| && s[|x| + |f|] == sep && s[|x|..|x| + |f|] == f
  {
    forall k | |x| <= k < |x| + |f| ensures IsDotDigit(s[k]) {
      assert s[k] == f[k - |x|];
    }
    RunEnd(s, |x|, |f|);
    Layout(x, f, [sep] + y);
    assert s == x + f + ([sep] + y);
  }

  lemma {:induction false} RunEnd(s: string, i: nat, n: nat)
    requires i + n < |s| && !IsDotDigit(s[i + n])
    requires forall k :: i <= k < i + n ==> IsDotDigit(s[k])
    ensures DotDigitRunEnd(s, i) == i + n
    decreases n
  {
    if n > 0 {
      RunEnd(s, i + 1, n - 1);
    }
  }

  /** Text without a percent sign has no packet-loss match anywhere. */
  lemma NoPercentNoLoss(s: string)
    requires '%' !in s
    ensures forall k: nat :: LossAt(s, k).None?
  {
  }

  /** Non-empty output without a percent sign reads as disconnected. */
  lemma NoPercentDisconnected(output: string)
    requires output != "" && '%' !in output
    ensures Classify(output).Disconnected?
  {
    NoPercentNoLoss(output);
    assert Search(LossAt, output, 0).None?;
  }

  /**
   * The last two lines of a ping that lost nothing:
   * "0% packet loss", then "rtt min/avg/max/mdev = 1.1/2.2/3.3/0.4 ms".
   */
  const Healthy: string := "0" + LossSuffix + "\n" + RttPrefix + "1.1" + "/" + "2.2" + "/" + "3.3" + "/" + "0.4" + " ms"

  lemma HealthyLoss()
    ensures LossAt(Healthy, 0) == Some("0")
  {
    var out := Healthy;
    assert DigitRunEnd(out, 1) == 1;
    assert DigitRunEnd(out, 0) == 1;
    assert out[0..1] == "0";
    assert OccursAt(out, LossSuffix, 1);
  }

  lemma HealthyRtt()
    ensures RttAt(Healthy, 15) == Some("2.2")
  {
    HealthyFields();
    assert OccursAt(Healthy, RttPrefix, 15);
    assert OccursAt(Healthy, " ms", 53);
    assert Healthy[42..45] == "2.2";
  }

  /** The four round-trip fields of the healthy report, each three characters long. */
  lemma HealthyFields()
    ensures DotDigitRunEnd(Healthy, 38) == 41 && Healthy[41] == '/'
    ensures DotDigitRunEnd(Healthy, 42) == 45 && Healthy[45] == '/'
    ensures DotDigitRunEnd(Healthy, 46) == 49 && Healthy[49] == '/'
    ensures DotDigitRunEnd(Healthy, 50) == 53
  {
    assert DotDigitRunEnd(Healthy, 41) == 41;
    assert DotDigitRunEnd(Healthy, 45) == 45;
    assert DotDigitRunEnd(Healthy, 49) == 49;
    assert DotDigitRunEnd(Healthy, 53) == 53;
  }

  /** A pattern cannot start before n when its first character does not occur there. */
  lemma AbsentBefore(s: string, t: string, n: nat)
    requires |t| > 0 && n <= |s| && t[0] !in s[..n]
    ensures forall k :: 0 <= k < n ==> !OccursAt(s, t, k)
  {
    forall k | 0 <= k < n ensures !OccursAt(s, t, k) {
      assert s[..n][k] == s[k];
      if k + |t| <= |s| {
        assert s[k..k + |t|][0] == s[k];
      }
    }
  }

  lemma HealthyRttFirst()
    ensures forall k :: 0 <= k < 15 ==> RttAt(Healthy, k).None?
  {
    assert Healthy[..15] == "0% packet loss\n";
    AbsentBefore(Healthy, RttPrefix, 15);
  }

  /** A report with no loss and a round-trip line is connected, with the average field. */
  lemma ReadsNoLossReport()
    ensures Classify(Healthy) == Connected("2.2")
  {
    HealthyLoss();
    HealthyRtt();
    HealthyRttFirst();
    SearchLeftmost(LossAt, Healthy, 0);
    SearchLeftmost(RttAt, Healthy, 15);
  }

  /** A report of total loss is disconnected, and carries the whole output. */
  lemma ReadsTotalLossReport()
    ensures Classify("100% packet loss") == Disconnected("100% packet loss")
  {
    var out := "100" + LossSuffix;
    assert out == "100% packet loss";
    assert LossAt(out, 0) == Some("100") by {
      assert DigitRunEnd(out, 3) == 3;
      assert DigitRunEnd(out, 0) == 3;
      assert out[3..3 + |LossSuffix|] == LossSuffix;
    }
    assert Value("100") == 100 by {
      assert "100"[..2] == "10" && "10"[..1] == "1" && "1"[..0] == "";
    }
  }

  // ---------------------------------------------------------------------------
  // The three checks.

  /** The history after a status check and what it concluded. */
  datatype Probe = Probe(log: seq<Event>, health: Health)

  /**
   * `ping_ssh` from `host` to `target`: the ip6gre module must be listed, the target must
   * show up in the interface's addresses, and then the ping output is classified. Each check
   * is one `execute_ssh_command` call; an empty result counts only after stripping.
   */
  function PingSpec(o: Oracle, h: seq<Event>, host: Host, target: string): Probe {
    var listed := ResultOf(o, h, host, ModuleCheck);
    var h1 := h + [Run(host, ModuleCheck)];
    if Strip(listed) == "" then Probe(h1, Error(ModuleNotLoaded))
    else
      var check := ResultOf(o, h1, host, InterfaceCheck(target));
      var h2 := h1 + [Run(host, InterfaceCheck(target))];
      if Strip(check) == "" then Probe(h2, Error(AddressNotSet(target, Interface(target))))
      else
        var output := ResultOf(o, h2, host, PingCommand(target));
        Probe(h2 + [Run(host, PingCommand(target))], Classify(output))
  }

  /**
   * A check stops at the first empty stripped result of the module check or the interface
   * check, and otherwise classifies the ping output; the commands run in that order.
   */
  lemma PingSteps(o: Oracle, h: seq<Event>, host: Host, target: string)
    ensures var p := PingSpec(o, h, host, target);
            var listed := ResultOf(o, h, host, ModuleCheck);
            var h1 := h + [Run(host, ModuleCheck)];
            var check := ResultOf(o, h1, host, InterfaceCheck(target));
            var h2 := h1 + [Run(host, InterfaceCheck(target))];
            (p.health == Error(ModuleNotLoaded) <==> Strip(listed) == "")
            && (p.health.Error? && p.health.problem.AddressNotSet? <==> Strip(listed) != "" && Strip(check) == "")
            && (Strip(listed) != "" && Strip(check) != "" ==>
                  p.health == Classify(ResultOf(o, h2, host, PingCommand(target)))
                  && p.log == h + [Run(host, ModuleCheck), Run(host, InterfaceCheck(target)), Run(host, PingCommand(target))])
  {
    var listed := ResultOf(o, h, host, ModuleCheck);
    var h1 := h + [Run(host, ModuleCheck)];
    var check := ResultOf(o, h1, host, InterfaceCheck(target));
    var h2 := h1 + [Run(host, InterfaceCheck(target))];
    if Strip(listed) != "" && Strip(check) != "" {
      assert h2 + [Run(host, PingCommand(target))]
          == h + [Run(host, ModuleCheck), Run(host, InterfaceCheck(target)), Run(host, PingCommand(target))];
    }
  }

  /** A result that comes from an exception is a non-empty error text, even when stripped. */
  lemma RaisedResult(o: Oracle, h: seq<Event>, host: Host, command: string, message: string)
    requires o(h, Run(host, command)) == Raised(message)
    ensures ResultOf(o, h, host, command) == ExceptionText(host.address, command, message)
    ensures Strip(ResultOf(o, h, host, command)) != ""
  {
    var r := ExceptionText(host.address, command, message);
    assert r[0] == FailureMark[0];
    StripKeepsNonSpace(r);
  }

  lemma PingPasses(o: Oracle, h: seq<Event>, host: Host, target: string)
    requires Strip(ResultOf(o, h, host, ModuleCheck)) != ""
    requires Strip(ResultOf(o, h + [Run(host, ModuleCheck)], host, InterfaceCheck(target))) != ""
    ensures PingSpec(o, h, host, target).health
            == Classify(ResultOf(o, h + [Run(host, ModuleCheck)] + [Run(host, InterfaceCheck(target))], host, PingCommand(target)))
  {
  }

  lemma NoPercentInException(address: string, command: string, message: string)
    requires '%' !in address && '%' !in command && '%' !in message
    ensures '%' !in ExceptionText(address, command, message)
  {
  }

  /**
   * When every command of the check raises (say the server is unreachable), each result is
   * a non-empty error text, so both checks pass and the report says disconnected, not error.
   */
  lemma UnreachableReadsDisconnected(o: Oracle, h: seq<Event>, host: Host, target: string, message: string)
    requires forall h': seq<Event>, command: string :: o(h', Run(host, command)) == Raised(message)
    requires '%' !in host.address && '%' !in target && '%' !in message
    ensures PingSpec(o, h, host, target).health.Disconnected?
  {
    var h1 := h + [Run(host, ModuleCheck)];
    var h2 := h1 + [Run(host, InterfaceCheck(target))];
    var out := ResultOf(o, h2, host, PingCommand(target));
    assert Strip(ResultOf(o, h, host, ModuleCheck)) != "" by {
      RaisedResult(o, h, host, ModuleCheck, message);
    }
    assert Strip(ResultOf(o, h1, host, InterfaceCheck(target))) != "" by {
      RaisedResult(o, h1, host, InterfaceCheck(target), message);
    }
    assert Classify(out).Disconnected? by {
      RaisedPing(o, h2, host, target, message);
      NoPercentDisconnected(out);
    }
    PingPasses(o, h, host, target);
  }

  /** The error text of a ping that raised is non-empty and has no percent sign. */
  lemma RaisedPing(o: Oracle, h: seq<Event>, host: Host, target: string, message: string)
    requires o(h, Run(host, PingCommand(target))) == Raised(message)
    requires '%' !in host.address && '%' !in target && '%' !in message
    ensures var out := ResultOf(o, h, host, PingCommand(target));
            out != "" && '%' !in out
  {
    RaisedResult(o, h, host, PingCommand(target), message);
    assert '%' !in "ping -c 4 ";
    NoPercentInException(host.address, PingCommand(target), message);
  }

  /** `ping_ssh` over a channel. */
  method Ping(ch: Channel, host: Host, target: string) returns (health: Health)
    modifies ch
    ensures Probe(ch.log, health) == PingSpec(ch.oracle, old(ch.log), host, target)
  {
    var listed := ch.Execute(host, ModuleCheck);
    if Strip(listed) == "" {
      return Error(ModuleNotLoaded);
    }
    var check := ch.Execute(host, InterfaceCheck(target));
    if Strip(check) == "" {
      return Error(AddressNotSet(target, Interface(target)));
    }
    var output := ch.Execute(host, PingCommand(target));
    health := Classify(output);
  }
}
