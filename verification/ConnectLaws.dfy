/** What a round of connection checks shows and raises, target by target. */
module ConnectLaws {
  import opened Text
  import opened Model
  import opened Settings
  import opened Connect

  /** The targets before k that took a port of their own. */
  function PortTakers(targets: seq<Check>, base: int, k: nat): set<int>
    requires k <= |targets|
  {
    set j: int | 0 <= j < k && UsesPort(ModeOf(targets, base, j))
  }

  lemma {:induction false} OffsetCounts(targets: seq<Check>, base: int, k: nat)
    requires k <= |targets|
    ensures Offset(targets, base, k) == |PortTakers(targets, base, k)|
  {
    hide ModeOf, UsesPort;
    if k == 0 {
      assert PortTakers(targets, base, 0) == {};
    } else {
      OffsetCounts(targets, base, k - 1);
      var before := PortTakers(targets, base, k - 1);
      assert PortTakers(targets, base, k) == if UsesPort(ModeOf(targets, base, k - 1)) then before + {k - 1} else before;
    }
  }

  /** An earlier Pod target with the signature of target k was tried. */
  ghost predicate HasTwin(targets: seq<Check>, base: int, k: nat)
    requires k < |targets|
  {
    exists j :: 0 <= j < k && IsTwin(targets, base, k, j)
  }

  /** The latest of them. */
  ghost predicate IsLatestTwin(targets: seq<Check>, base: int, k: nat, j: nat)
    requires k < |targets|
  {
    && j < k && IsTwin(targets, base, k, j)
    && forall i :: j < i < k ==> !IsTwin(targets, base, k, i)
  }

  ghost predicate IsTwin(targets: seq<Check>, base: int, k: nat, j: nat)
    requires k < |targets| && j < |targets|
  {
    && targets[j].group == PodGroup && ModeOf(targets, base, j).Attempted?
    && CheckSignature(targets[j]) == CheckSignature(targets[k])
  }

  lemma {:induction false} LastTriedIsLatest(targets: seq<Check>, base: int, n: nat, k: nat, i: nat)
    requires n <= k < |targets| && i < n && IsTwin(targets, base, k, i)
    ensures var last := LastTried(targets, base, n, CheckSignature(targets[k])); last.Some? && i <= last.value
    decreases n
  {
    assert IsTriedPod(targets, base, i);
    hide CheckSignature, IsTriedPod, ModeOf;
    if i < n - 1 {
      LastTriedIsLatest(targets, base, n - 1, k, i);
    }
  }

  /** A shared target shows the result of the latest tried Pod target with its signature. */
  lemma SharesWithLatest(targets: seq<Check>, base: int, k: nat)
    requires k < |targets| && ModeOf(targets, base, k).SharedWith?
    ensures IsLatestTwin(targets, base, k, ModeOf(targets, base, k).origin)
  {
    var j := ModeOf(targets, base, k).origin;
    LastTriedFinds(targets, base, k, CheckSignature(targets[k]));
    assert LastTried(targets, base, k, CheckSignature(targets[k])) == Some(j);
    assert IsTriedPod(targets, base, j) ==> targets[j].group == PodGroup && ModeOf(targets, base, j).Attempted?;
    hide CheckSignature, LastTried, ModeOf, IsTriedPod;
    forall i | j < i < k ensures !IsTwin(targets, base, k, i) {
      if IsTwin(targets, base, k, i) {
        LastTriedIsLatest(targets, base, k, k, i);
      }
    }
  }

  /** An inactive target is skipped; an active Service target with a tried twin shares;
      every other active target takes the next port and is tried if that is one. */
  lemma ModeIs(targets: seq<Check>, base: int, k: nat)
    requires k < |targets|
    ensures var m, port := ModeOf(targets, base, k), base + |PortTakers(targets, base, k)|;
            var shares := targets[k].group == ServiceGroup && HasTwin(targets, base, k);
            && (m == Skipped <==> !targets[k].active)
            && (m.SharedWith? <==> targets[k].active && shares)
            && (m == Attempted(port) <==> targets[k].active && !shares && port <= 65535)
            && (m == OutOfRange(port) <==> targets[k].active && !shares && port > 65535)
  {
    OffsetCounts(targets, base, k);
    TwinIsFound(targets, base, k);
    hide CheckSignature, PortTakers, Offset, LastTried, HasTwin;
  }

  lemma TwinIsFound(targets: seq<Check>, base: int, k: nat)
    requires k < |targets|
    ensures LastTried(targets, base, k, CheckSignature(targets[k])).Some? <==> HasTwin(targets, base, k)
  {
    LastTriedFinds(targets, base, k, CheckSignature(targets[k]));
    hide CheckSignature, LastTried, ModeOf;
    forall j: nat | j < k
      ensures IsTriedPod(targets, base, j) && CheckSignature(targets[j]) == CheckSignature(targets[k]) <==> IsTwin(targets, base, k, j)
    {
    }
    hide IsTriedPod, IsTwin;
  }

  // ---------------------------------------------------------------------------
  // Results

  /** What is shown for a target that opened its own tunnel, or tried to. */
  ghost predicate IsTried(r: Result, target: Check, port: int, a: Attempt)
  {
    && r.target == target && r.localPort == port && r.detail == a.detail && !r.shared
    && (r.tested <==> !a.failed) && (r.successful <==> a.successful) && (r.warned <==> a.warned) && r.statusCode == a.statusCode
  }

  /** What is shown for a target that was not tried. */
  ghost predicate IsUntried(r: Result, target: Check, port: int, detail: string)
  {
    && r.target == target && r.localPort == port && r.detail == detail
    && !r.tested && !r.successful && !r.warned && r.statusCode == 0 && !r.shared
  }

  /** What is shown for a target that shares the answer of the Pod target o. */
  ghost predicate IsShared(r: Result, target: Check, o: Result)
  {
    var note := "Pod直接 :" + Itoa(o.target.request.remotePort) + " と同じ転送先のため、同じ接続結果です";
    && r.target == target && r.shared && r.localPort == o.localPort && r.statusCode == o.statusCode
    && r.tested == o.tested && r.successful == o.successful && r.warned == o.warned
    && r.detail == if TrimSpace(o.detail) == "" then note else TrimSpace(o.detail) + " / " + note
  }

  /** The result of every target is that of its own attempt, that of the Pod target it
      shares with, or says why there was none. */
  lemma ResultIs(targets: seq<Check>, base: int, check: (Check, int) -> Attempt, k: nat)
    requires k < |targets|
    ensures var r := ResultAt(targets, base, check, k);
            match ModeOf(targets, base, k)
            case Skipped => IsUntried(r, targets[k], 0, "未実施: " + targets[k].inactive)
            case OutOfRange(port) => IsUntried(r, targets[k], port, "ローカルポート範囲外")
            case Attempted(port) => IsTried(r, targets[k], port, check(targets[k], port))
            case SharedWith(j) => j < k && IsShared(r, targets[k], ResultAt(targets, base, check, j))
  {
    SharingIsJustified(targets, base, check, k);
    if ModeOf(targets, base, k).SharedWith? {
      var j := ModeOf(targets, base, k).origin;
      TriedShows(targets, base, check, j);
      assert targets[j].group == PodGroup;
    }
    hide ModeOf, CheckSignature, Itoa, TrimSpace, HasTwin;
  }

  // ---------------------------------------------------------------------------
  // Alerts

  /** The code of a failed attempt. */
  ghost predicate Explains(target: Check, statusCode: int, code: string)
  {
    var probe := target.fromProbe && target.group == PodGroup;
    || (code == "K8S.PROBE.TCP_FAILED" && probe && target.request.protocol == "tcp")
    || (code == "K8S.PROBE.HTTP_FAILED" && probe && target.request.protocol != "tcp" && statusCode > 0)
    || (code == "K8S.PROBE.UNREACHABLE" && probe && target.request.protocol != "tcp" && statusCode <= 0)
    || (code == "K8S.CONNECT.HTTP_FAILED" && !probe && target.request.protocol == "http" && statusCode > 0)
    || (code == "K8S.CONNECT.HTTP_UNREACHABLE" && !probe && target.request.protocol == "http" && statusCode <= 0)
    || (code == "K8S.CONNECT.TCP_FAILED" && !probe && target.request.protocol != "http")
  }

  /** An attempt raises this alert. */
  ghost predicate Raises(target: Check, a: Attempt, x: Alert)
  {
    || (x == Alert(Unavailable, "K8S.CONNECT.PORT_FORWARD_UNAVAILABLE") && a.failed)
    || (x.severity == Warning && !a.failed && !a.successful && Explains(target, a.statusCode, x.code))
    || (x == Alert(Warning, "K8S.CONNECT.HTTP_RESPONSE_WARNING") && !a.failed && a.successful && a.warned)
  }

  /** A skipped target raises this alert. */
  ghost predicate Reports(target: Check, x: Alert)
  {
    || (x == Alert(Issue, "K8S.PROBE.PORT_UNRESOLVED") && target.invalid)
    || (&& !target.invalid && target.unavailable && x.severity == Unavailable
        && x.code == if target.unavailableCode == "" then "K8S.CONNECT.PROBE_HOST_UNSUPPORTED" else target.unavailableCode)
  }

  /** Each target raises at most one alert, and which one. */
  lemma AlertsAre(targets: seq<Check>, base: int, check: (Check, int) -> Attempt, k: nat, x: Alert)
    requires k < |targets|
    ensures |AlertsAt(targets, base, check, k)| <= 1
    ensures x in AlertsAt(targets, base, check, k)
            <==> match ModeOf(targets, base, k)
                 case Skipped => Reports(targets[k], x)
                 case OutOfRange(_) => x == Alert(Unavailable, "K8S.CONNECT.LOCAL_PORT_UNAVAILABLE")
                 case Attempted(port) => Raises(targets[k], check(targets[k], port), x)
                 case SharedWith(_) => false
  {
    hide ModeOf;
    match ModeOf(targets, base, k) {
      case Attempted(port) => FailureIs(targets[k], check(targets[k], port).statusCode, x.code);
      case _ =>
    }
  }

  lemma FailureIs(target: Check, statusCode: int, code: string)
    ensures code == FailureCode(target, statusCode) <==> Explains(target, statusCode, code)
  {
  }

  /** The alerts of a round are those of its targets, in order. */
  lemma {:induction false} AlertsOfRound(targets: seq<Check>, base: int, check: (Check, int) -> Attempt, n: nat, x: Alert)
    requires n <= |targets|
    ensures x in Alerts(targets, base, check, n) <==> exists k :: 0 <= k < n && x in AlertsAt(targets, base, check, k)
    ensures |Alerts(targets, base, check, n)| <= n
  {
    hide AlertsAt;
    if n > 0 {
      AlertsOfRound(targets, base, check, n - 1, x);
      AlertsAre(targets, base, check, n - 1, x);
    }
  }

  /** A configured port is the base; otherwise one is drawn between 10000 and 59999. */
  lemma BaseIs(connectPort: int, targets: nat, random: Random)
    requires Draws(random)
    ensures var base := BaseOf(connectPort, targets, random);
            && (connectPort != 0 ==> base == connectPort)
            && (connectPort == 0 ==> 10000 <= base <= 59999)
  {
  }
}
