/** Connection checks against one Pod: local ports and shared results. */
module Connect {
  import opened Text
  import opened Seqs
  import opened Model
  import opened Config
  import opened Settings

  datatype Header = Header(name: string, value: string)

  /** The tunnel destination and the whole request of a check. */
  datatype Request = Request(remotePort: GoInt, protocol: string, scheme: string, path: string, rawPath: string,
                             rawQuery: string, headers: seq<Header>, strict: bool, timeoutSeconds: GoInt)

  datatype Group = PodGroup | ServiceGroup

  datatype Check = Check(group: Group, request: Request, fromProbe: bool, active: bool, invalid: bool,
                         unavailable: bool, unavailableCode: string, inactive: string)

  /** How one tunnel and request went; `failed` means that the tunnel did not open. */
  datatype Attempt = Attempt(failed: bool, successful: bool, warned: bool, statusCode: int, detail: string)

  datatype Result = Result(target: Check, localPort: int, tested: bool, successful: bool, warned: bool, statusCode: int,
                           detail: string, shared: bool)

  // ---------------------------------------------------------------------------
  // Signatures

  /** strings.Join for a one-character separator. */
  function Join(parts: seq<string>, sep: char): string
  {
    if parts == [] then ""
    else if |parts| == 1 then parts[0]
    else parts[0] + [sep] + Join(parts[1..], sep)
  }

  function HeaderLine(h: Header): string
  {
    h.name + ": " + h.value
  }

  function SignatureParts(r: Request): seq<string>
  {
    [Itoa(r.remotePort), r.protocol, r.scheme, r.path, r.rawPath, r.rawQuery,
     Join(Map(HeaderLine, r.headers), '\n'), FormatBool(r.strict), Itoa(r.timeoutSeconds)]
  }

  function CheckSignature(c: Check): string
  {
    Join(SignatureParts(c.request), '\0')
  }

  /** Texts that a URL and an HTTP header can hold: no NUL, no line feed in a header, no colon in its name. */
  ghost predicate Sendable(r: Request)
  {
    && '\0' !in r.protocol && '\0' !in r.scheme && '\0' !in r.path && '\0' !in r.rawPath && '\0' !in r.rawQuery
    && forall h :: h in r.headers ==> HeaderIsPlain(h)
  }

  predicate HeaderIsPlain(h: Header)
  {
    && '\0' !in h.name && '\n' !in h.name && ':' !in h.name
    && '\0' !in h.value && '\n' !in h.value
  }

  lemma JoinHasSeparator(parts: seq<string>, sep: char)
    ensures |parts| >= 2 ==> sep in Join(parts, sep)
  {
  }

  lemma {:induction false} JoinInjective(a: seq<string>, b: seq<string>, sep: char)
    requires forall i :: 0 <= i < |a| ==> sep !in a[i]
    requires forall i :: 0 <= i < |b| ==> sep !in b[i]
    requires |a| == |b| || ((forall i :: 0 <= i < |a| ==> a[i] != "") && (forall i :: 0 <= i < |b| ==> b[i] != ""))
    requires Join(a, sep) == Join(b, sep)
    ensures a == b
  {
    JoinHasSeparator(a, sep);
    JoinHasSeparator(b, sep);
    if |a| >= 2 && |b| >= 2 {
      SplitsOnce(sep, a[0], Join(a[1..], sep), b[0], Join(b[1..], sep));
      JoinInjective(a[1..], b[1..], sep);
      assert a == [a[0]] + a[1..] && b == [b[0]] + b[1..];
    }
  }

  lemma {:induction false} JoinLacks(parts: seq<string>, sep: char, c: char)
    requires c != sep && forall i :: 0 <= i < |parts| ==> c !in parts[i]
    ensures c !in Join(parts, sep)
  {
    if |parts| >= 2 {
      JoinLacks(parts[1..], sep, c);
    }
  }

  lemma ItoaLacksNul(n: GoInt)
    ensures '\0' !in Itoa(n)
  {
    var m: nat := if n < 0 then -(n as int) else n as int;
    DigitsParse(m);
  }

  lemma HeaderLinesInjective(a: Header, b: Header)
    requires HeaderIsPlain(a) && HeaderIsPlain(b) && HeaderLine(a) == HeaderLine(b)
    ensures a == b
  {
    assert HeaderLine(a) == a.name + [':'] + (" " + a.value);
    assert HeaderLine(b) == b.name + [':'] + (" " + b.value);
    SplitsOnce(':', a.name, " " + a.value, b.name, " " + b.value);
    assert (" " + a.value)[1..] == a.value && (" " + b.value)[1..] == b.value;
  }

  lemma HeaderLinesArePlain(headers: seq<Header>)
    requires forall h :: h in headers ==> HeaderIsPlain(h)
    ensures forall i :: 0 <= i < |headers| ==>
      var line := Map(HeaderLine, headers)[i];
      line == HeaderLine(headers[i]) && line != "" && '\n' !in line && '\0' !in line
  {
    forall i | 0 <= i < |headers|
      ensures Map(HeaderLine, headers)[i] == HeaderLine(headers[i])
      ensures var line := HeaderLine(headers[i]); line != "" && '\n' !in line && '\0' !in line
    {
      MapAt(HeaderLine, headers, i);
      assert headers[i] in headers;
    }
  }

  lemma SameHeaders(a: seq<Header>, b: seq<Header>)
    requires forall h :: h in a ==> HeaderIsPlain(h)
    requires forall h :: h in b ==> HeaderIsPlain(h)
    requires Join(Map(HeaderLine, a), '\n') == Join(Map(HeaderLine, b), '\n')
    ensures a == b
  {
    HeaderLinesArePlain(a);
    HeaderLinesArePlain(b);
    hide Map, HeaderLine, HeaderIsPlain;
    JoinInjective(Map(HeaderLine, a), Map(HeaderLine, b), '\n');
    forall i | 0 <= i < |a| ensures a[i] == b[i] {
      assert a[i] in a && b[i] in b;
      HeaderLinesInjective(a[i], b[i]);
    }
  }

  lemma PartsArePlain(r: Request)
    requires Sendable(r)
    ensures forall i :: 0 <= i < |SignatureParts(r)| ==> '\0' !in SignatureParts(r)[i]
  {
    ItoaLacksNul(r.remotePort);
    ItoaLacksNul(r.timeoutSeconds);
    HeaderLinesArePlain(r.headers);
    JoinLacks(Map(HeaderLine, r.headers), '\n', '\0');
    hide Itoa, Join, Map, HeaderIsPlain;
  }

  /** Among requests that can be sent, checks share a signature exactly when destination and request are equal. */
  lemma SignatureIdentifies(a: Check, b: Check)
    requires Sendable(a.request) && Sendable(b.request)
    ensures CheckSignature(a) == CheckSignature(b) <==> a.request == b.request
  {
    var p, q := SignatureParts(a.request), SignatureParts(b.request);
    PartsArePlain(a.request);
    PartsArePlain(b.request);
    if CheckSignature(a) == CheckSignature(b) {
      JoinInjective(p, q, '\0');
      PartsIdentify(a.request, b.request);
    }
  }

  lemma PartsIdentify(a: Request, b: Request)
    requires Sendable(a) && Sendable(b) && SignatureParts(a) == SignatureParts(b)
    ensures a == b
  {
    SamePartsSameFields(a, b);
    hide SignatureParts, Join, Map, HeaderIsPlain;
    SameHeaders(a.headers, b.headers);
  }

  // ---------------------------------------------------------------------------
  // Exactly when a signature identifies the request

  /** How often c occurs in s. */
  function Count(c: char, s: string): nat
  {
    if s == [] then 0 else Count(c, s[1..]) + if s[0] == c then 1 else 0
  }

  /** Two texts that are cut at a separator after equally many others agree on both sides of the cut. */
  lemma {:induction false} SplitsAlike(sep: char, a: string, x: string, b: string, y: string)
    requires Count(sep, a) == Count(sep, b) && a + [sep] + x == b + [sep] + y
    ensures a == b && x == y
  {
    var left, right := a + [sep] + x, b + [sep] + y;
    if a == [] || b == [] {
      assert left[|a|] == sep && right[|b|] == sep;
      assert a == [] && b == [];
      assert left[1..] == x && right[1..] == y;
    } else {
      assert left[0] == a[0] && right[0] == b[0];
      assert left[1..] == a[1..] + [sep] + x && right[1..] == b[1..] + [sep] + y;
      SplitsAlike(sep, a[1..], x, b[1..], y);
      assert a == [a[0]] + a[1..] && b == [b[0]] + b[1..];
    }
  }

  /** Part for part, as many separators. */
  predicate CutAlike(a: seq<string>, b: seq<string>, sep: char)
  {
    |a| == |b| && forall i :: 0 <= i < |a| ==> Count(sep, a[i]) == Count(sep, b[i])
  }

  lemma {:induction false} JoinsAlike(a: seq<string>, b: seq<string>, sep: char)
    requires CutAlike(a, b, sep) && Join(a, sep) == Join(b, sep)
    ensures a == b
  {
    if |a| >= 2 {
      SplitsAlike(sep, a[0], Join(a[1..], sep), b[0], Join(b[1..], sep));
      JoinsAlike(a[1..], b[1..], sep);
      assert a == [a[0]] + a[1..] && b == [b[0]] + b[1..];
    }
  }

  /** The separators of the signature lie alike in two requests: as many NULs in each
      part, as many headers, as many line feeds in each header line, and as many
      colons in each header name. */
  ghost predicate SameLayout(a: Request, b: Request)
  {
    && CutAlike(SignatureParts(a), SignatureParts(b), '\0')
    && CutAlike(Map(HeaderLine, a.headers), Map(HeaderLine, b.headers), '\n')
    && forall i :: 0 <= i < |a.headers| && i < |b.headers| ==>
         Count(':', a.headers[i].name) == Count(':', b.headers[i].name)
  }

  lemma SameLineSameHeader(a: Header, b: Header)
    requires Count(':', a.name) == Count(':', b.name) && HeaderLine(a) == HeaderLine(b)
    ensures a == b
  {
    assert HeaderLine(a) == a.name + [':'] + (" " + a.value);
    assert HeaderLine(b) == b.name + [':'] + (" " + b.value);
    SplitsAlike(':', a.name, " " + a.value, b.name, " " + b.value);
    assert (" " + a.value)[1..] == a.value && (" " + b.value)[1..] == b.value;
  }

  lemma SameLinesSameHeaders(a: seq<Header>, b: seq<Header>)
    requires Map(HeaderLine, a) == Map(HeaderLine, b)
    requires forall i :: 0 <= i < |a| && i < |b| ==> Count(':', a[i].name) == Count(':', b[i].name)
    ensures a == b
  {
    hide HeaderLine, Count;
    forall i | 0 <= i < |a| && i < |b| ensures a[i] == b[i] {
      MapAt(HeaderLine, a, i);
      MapAt(HeaderLine, b, i);
      SameLineSameHeader(a[i], b[i]);
    }
  }

  /** Two checks are for the same request if and only if their signatures are equal
      and the separators lie alike in them. */
  lemma SignatureIdentifiesExactly(a: Check, b: Check)
    ensures a.request == b.request <==> CheckSignature(a) == CheckSignature(b) && SameLayout(a.request, b.request)
  {
    if CheckSignature(a) == CheckSignature(b) && SameLayout(a.request, b.request) {
      JoinsAlike(SignatureParts(a.request), SignatureParts(b.request), '\0');
      hide CutAlike, Join, Map;
      SamePartsSameFields(a.request, b.request);
      hide SignatureParts;
      JoinsAlike(Map(HeaderLine, a.request.headers), Map(HeaderLine, b.request.headers), '\n');
      SameLinesSameHeaders(a.request.headers, b.request.headers);
    }
  }

  /** No NUL anywhere, and no colon or line feed in a header name; values may hold line feeds. */
  ghost predicate NulFree(r: Request)
  {
    && '\0' !in r.protocol && '\0' !in r.scheme && '\0' !in r.path && '\0' !in r.rawPath && '\0' !in r.rawQuery
    && forall h :: h in r.headers ==> '\0' !in h.name && '\0' !in h.value && ':' !in h.name && '\n' !in h.name
  }

  lemma {:induction false} CountAbsent(c: char, s: string)
    requires c !in s
    ensures Count(c, s) == 0
  {
    if s != [] {
      CountAbsent(c, s[1..]);
    }
  }

  lemma NulFreeParts(r: Request)
    requires NulFree(r)
    ensures forall i :: 0 <= i < |SignatureParts(r)| ==> Count('\0', SignatureParts(r)[i]) == 0
  {
    ItoaLacksNul(r.remotePort);
    ItoaLacksNul(r.timeoutSeconds);
    forall i | 0 <= i < |r.headers| ensures '\0' !in Map(HeaderLine, r.headers)[i] {
      MapAt(HeaderLine, r.headers, i);
      assert r.headers[i] in r.headers;
    }
    JoinLacks(Map(HeaderLine, r.headers), '\n', '\0');
    hide Itoa, Join, Map, Count;
    forall i | 0 <= i < |SignatureParts(r)| ensures Count('\0', SignatureParts(r)[i]) == 0 {
      CountAbsent('\0', SignatureParts(r)[i]);
    }
  }

  /** Without NULs the header lines alone decide: as many headers, and as many line
      feeds in each header line. */
  lemma NulFreeIdentifies(a: Check, b: Check)
    requires NulFree(a.request) && NulFree(b.request)
    ensures a.request == b.request
            <==> && CheckSignature(a) == CheckSignature(b)
                 && CutAlike(Map(HeaderLine, a.request.headers), Map(HeaderLine, b.request.headers), '\n')
  {
    SignatureIdentifiesExactly(a, b);
    NulFreeParts(a.request);
    NulFreeParts(b.request);
    var g, h := a.request.headers, b.request.headers;
    hide Count, Map, Join, Itoa;
    forall i | 0 <= i < |g| && i < |h| ensures Count(':', g[i].name) == Count(':', h[i].name) {
      assert g[i] in g && h[i] in h;
      CountAbsent(':', g[i].name);
      CountAbsent(':', h[i].name);
    }
  }

  lemma SamePartsSameFields(a: Request, b: Request)
    requires SignatureParts(a) == SignatureParts(b)
    ensures Join(Map(HeaderLine, a.headers), '\n') == Join(Map(HeaderLine, b.headers), '\n')
    ensures a == b.(headers := a.headers)
  {
    var p, q := SignatureParts(a), SignatureParts(b);
    assert p[0] == q[0] && p[1] == q[1] && p[2] == q[2] && p[3] == q[3] && p[4] == q[4] && p[5] == q[5]
        && p[6] == q[6] && p[7] == q[7] && p[8] == q[8];
    ItoaParses(a.remotePort);
    ItoaParses(b.remotePort);
    ItoaParses(a.timeoutSeconds);
    ItoaParses(b.timeoutSeconds);
    assert "true" != "false";
    hide Itoa, Atoi, Join, Map;
  }

  /** A line feed in a header value makes two different requests look the same. */
  lemma LineFeedMisleads(r: Request)
    ensures var one := r.(headers := [Header("A", "b\nC: d")]);
            var two := r.(headers := [Header("A", "b"), Header("C", "d")]);
            one != two && SignatureParts(one) == SignatureParts(two)
  {
    var one, two := [Header("A", "b\nC: d")], [Header("A", "b"), Header("C", "d")];
    assert HeaderLine(one[0]) == "A: b\nC: d" && HeaderLine(two[0]) == "A: b" && HeaderLine(two[1]) == "C: d";
    MapAt(HeaderLine, one, 0);
    MapAt(HeaderLine, two, 0);
    MapAt(HeaderLine, two, 1);
    assert Map(HeaderLine, one) == ["A: b\nC: d"];
    assert Map(HeaderLine, two) == ["A: b", "C: d"];
    assert ["A: b", "C: d"][1..] == ["C: d"];
    assert Join(["A: b", "C: d"], '\n') == "A: b" + ['\n'] + "C: d" == "A: b\nC: d";
  }

  // ---------------------------------------------------------------------------
  // Ports

  const MAX_PORT := 65535
  const FIRST_PORT := 10000
  const FALLBACK_PORT := 18080

  /** rand.Int: a number below the bound, or an error. */
  type Random = int -> Option<int>

  ghost predicate Draws(random: Random)
  {
    forall n :: n > 0 && random(n).Some? ==> 0 <= random(n).value < n
  }

  function RandomBasePort(targets: int, random: Random): int
  {
    var n := Max(targets, 1);
    var maximum := Min(59999, MAX_PORT - n + 1);
    if maximum <= FIRST_PORT then FIRST_PORT
    else
      match random(maximum - FIRST_PORT + 1)
      case None => FALLBACK_PORT
      case Some(value) => FIRST_PORT + value
  }

  /** A successfully drawn base leaves room for every target exactly up to 55536
      targets, and the fallback up to 47456. */
  lemma RandomBaseFits(targets: nat, random: Random)
    requires Draws(random) && targets > 0
    ensures var base := RandomBasePort(targets, random);
            && FIRST_PORT <= base <= 59999
            && (base + targets - 1 <= MAX_PORT <==>
                  targets <= 47456 || (targets <= 55536 && (random(Min(59999, MAX_PORT - targets + 1) - FIRST_PORT + 1).Some?
                                                            || targets == 55536)))
  {
  }

  // ---------------------------------------------------------------------------
  // The plan of a round of checks

  datatype Mode = Skipped | SharedWith(origin: nat) | OutOfRange(port: int) | Attempted(port: int)

  /** Which targets are skipped, share an earlier result, find no port, or are tried. */
  function ModeOf(targets: seq<Check>, base: int, k: nat): (m: Mode)
    requires k < |targets|
    decreases k, 2
  {
    var shared := Reusable(targets, base, k, targets[k]);
    if !targets[k].active then Skipped
    else if shared.Some? then SharedWith(shared.value)
    else
      var port := base + Offset(targets, base, k);
      if port > MAX_PORT then OutOfRange(port) else Attempted(port)
  }

  /** A Service target may share the latest earlier tried Pod target with its signature. */
  function Reusable(targets: seq<Check>, base: int, k: nat, target: Check): (origin: Option<nat>)
    requires k <= |targets|
    ensures origin.Some? ==> origin.value < k
    decreases k, 1
  {
    if target.group != ServiceGroup then None else LastTried(targets, base, k, CheckSignature(target))
  }

  function LastTried(targets: seq<Check>, base: int, k: nat, signature: string): (origin: Option<nat>)
    requires k <= |targets|
    ensures origin.Some? ==> origin.value < k
    decreases k, 0
  {
    if k == 0 then None
    else if IsTriedPod(targets, base, k - 1) && CheckSignature(targets[k - 1]) == signature then Some(k - 1)
    else LastTried(targets, base, k - 1, signature)
  }

  predicate IsTriedPod(targets: seq<Check>, base: int, k: nat)
    requires k < |targets|
    decreases k, 3
  {
    targets[k].group == PodGroup && ModeOf(targets, base, k).Attempted?
  }

  predicate UsesPort(m: Mode) { m.Attempted? || m.OutOfRange? }

  /** The ports handed out before target k. */
  function Offset(targets: seq<Check>, base: int, k: nat): (n: nat)
    requires k <= |targets|
    ensures n <= k
    decreases k, 0
  {
    if k == 0 then 0 else Offset(targets, base, k - 1) + if UsesPort(ModeOf(targets, base, k - 1)) then 1 else 0
  }

  function GroupTitle(group: Group): string
  {
    if group == ServiceGroup then "Serviceの転送先ポート" else "Pod直接"
  }

  /** An earlier result shown for another target with the same destination. */
  function SharedResult(origin: Result, target: Check): Result
  {
    var note := GroupTitle(origin.target.group) + " :" + Itoa(origin.target.request.remotePort)
                + " と同じ転送先のため、同じ接続結果です";
    var detail := TrimSpace(origin.detail);
    origin.(target := target, shared := true, detail := if detail == "" then note else detail + " / " + note)
  }

  function Untested(target: Check, port: int, detail: string): Result
  {
    Result(target, port, false, false, false, 0, detail, false)
  }

  function TriedResult(target: Check, port: int, a: Attempt): Result
  {
    Result(target, port, !a.failed, a.successful, a.warned, a.statusCode, a.detail, false)
  }

  /** The result shown for target k. */
  function ResultAt(targets: seq<Check>, base: int, check: (Check, int) -> Attempt, k: nat): Result
    requires k < |targets|
    decreases k
  {
    match ModeOf(targets, base, k)
    case Skipped => Untested(targets[k], 0, "未実施: " + targets[k].inactive)
    case SharedWith(origin) =>
      SharedWithEarlier(targets, base, k);
      SharedResult(ResultAt(targets, base, check, origin), targets[k])
    case OutOfRange(port) => Untested(targets[k], port, "ローカルポート範囲外")
    case Attempted(port) => TriedResult(targets[k], port, check(targets[k], port))
  }

  lemma SharedWithEarlier(targets: seq<Check>, base: int, k: nat)
    requires k < |targets|
    ensures ModeOf(targets, base, k).SharedWith? ==> ModeOf(targets, base, k).origin < k
  {
  }

  datatype Alert = Alert(severity: Severity, code: string)

  function FailureCode(target: Check, statusCode: int): string
  {
    if target.fromProbe && target.group == PodGroup then
      if target.request.protocol == "tcp" then "K8S.PROBE.TCP_FAILED"
      else if statusCode > 0 then "K8S.PROBE.HTTP_FAILED"
      else "K8S.PROBE.UNREACHABLE"
    else if target.request.protocol == "http" then
      if statusCode > 0 then "K8S.CONNECT.HTTP_FAILED" else "K8S.CONNECT.HTTP_UNREACHABLE"
    else "K8S.CONNECT.TCP_FAILED"
  }

  function SkipAlerts(target: Check): seq<Alert>
  {
    if target.invalid then [Alert(Issue, "K8S.PROBE.PORT_UNRESOLVED")]
    else if target.unavailable then
      [Alert(Unavailable, if target.unavailableCode == "" then "K8S.CONNECT.PROBE_HOST_UNSUPPORTED" else target.unavailableCode)]
    else []
  }

  function TryAlerts(target: Check, a: Attempt): seq<Alert>
  {
    if a.failed then [Alert(Unavailable, "K8S.CONNECT.PORT_FORWARD_UNAVAILABLE")]
    else if !a.successful then [Alert(Warning, FailureCode(target, a.statusCode))]
    else if a.warned then [Alert(Warning, "K8S.CONNECT.HTTP_RESPONSE_WARNING")]
    else []
  }

  /** A shared result raises no second alert. */
  function AlertsAt(targets: seq<Check>, base: int, check: (Check, int) -> Attempt, k: nat): seq<Alert>
    requires k < |targets|
  {
    match ModeOf(targets, base, k)
    case Skipped => SkipAlerts(targets[k])
    case SharedWith(_) => []
    case OutOfRange(_) => [Alert(Unavailable, "K8S.CONNECT.LOCAL_PORT_UNAVAILABLE")]
    case Attempted(port) => TryAlerts(targets[k], check(targets[k], port))
  }

  function Alerts(targets: seq<Check>, base: int, check: (Check, int) -> Attempt, n: nat): seq<Alert>
    requires n <= |targets|
  {
    if n == 0 then [] else Alerts(targets, base, check, n - 1) + AlertsAt(targets, base, check, n - 1)
  }

  function BaseOf(connectPort: int, targets: nat, random: Random): int
  {
    if connectPort == 0 then RandomBasePort(targets, random) else connectPort
  }

  /** The signatures of the tried Pod targets, with the latest target of each. */
  ghost predicate Remembers(targets: seq<Check>, base: int, n: nat, checked: map<string, nat>)
    requires n <= |targets|
  {
    forall s :: LastTried(targets, base, n, s) == if s in checked then Some(checked[s]) else None
  }

  lemma RemembersStep(targets: seq<Check>, base: int, n: nat, checked: map<string, nat>)
    requires n < |targets| && Remembers(targets, base, n, checked)
    ensures Remembers(targets, base, n + 1,
                      if IsTriedPod(targets, base, n) then checked[CheckSignature(targets[n]) := n] else checked)
  {
  }

  /** The branch taken for target k. */
  function Branch(target: Check, port: int, checked: map<string, nat>): Mode
  {
    if !target.active then Skipped
    else if target.group == ServiceGroup && CheckSignature(target) in checked then SharedWith(checked[CheckSignature(target)])
    else if port > MAX_PORT then OutOfRange(port)
    else Attempted(port)
  }

  lemma PlanStep(targets: seq<Check>, base: int, k: nat, checked: map<string, nat>)
    requires k < |targets| && Remembers(targets, base, k, checked)
    ensures ModeOf(targets, base, k) == Branch(targets[k], base + Offset(targets, base, k), checked)
    ensures Offset(targets, base, k + 1)
            == Offset(targets, base, k) + if UsesPort(ModeOf(targets, base, k)) then 1 else 0
    ensures IsTriedPod(targets, base, k) == (targets[k].group == PodGroup && ModeOf(targets, base, k).Attempted?)
    ensures ModeOf(targets, base, k).SharedWith? ==> ModeOf(targets, base, k).origin < k
  {
  }

  /** The results so far are those of the first n targets. */
  ghost predicate Shows(targets: seq<Check>, base: int, check: (Check, int) -> Attempt, results: seq<Result>, n: nat)
  {
    && n <= |targets| && |results| == n
    && forall k :: 0 <= k < n ==> results[k] == ResultAt(targets, base, check, k)
  }

  lemma ShowsStep(targets: seq<Check>, base: int, check: (Check, int) -> Attempt, results: seq<Result>, n: nat, r: Result)
    requires n < |targets| && Shows(targets, base, check, results, n) && r == ResultAt(targets, base, check, n)
    ensures Shows(targets, base, check, results + [r], n + 1)
  {
  }

  /** One target, whose branch is given; a shared result is looked up among the earlier ones. */
  method RunTarget(target: Check, mode: Mode, results: seq<Result>, check: (Check, int) -> Attempt)
    returns (result: Result, alerts: seq<Alert>)
    requires mode.SharedWith? ==> mode.origin < |results|
    ensures result == match mode
                      case Skipped => Untested(target, 0, "未実施: " + target.inactive)
                      case SharedWith(origin) => SharedResult(results[origin], target)
                      case OutOfRange(port) => Untested(target, port, "ローカルポート範囲外")
                      case Attempted(port) => TriedResult(target, port, check(target, port))
    ensures alerts == match mode
                      case Skipped => SkipAlerts(target)
                      case SharedWith(_) => []
                      case OutOfRange(_) => [Alert(Unavailable, "K8S.CONNECT.LOCAL_PORT_UNAVAILABLE")]
                      case Attempted(port) => TryAlerts(target, check(target, port))
  {
    match mode {
      case Skipped =>
        result, alerts := Untested(target, 0, "未実施: " + target.inactive), SkipAlerts(target);
      case SharedWith(origin) =>
        result, alerts := SharedResult(results[origin], target), [];
      case OutOfRange(port) =>
        result := Untested(target, port, "ローカルポート範囲外");
        alerts := [Alert(Unavailable, "K8S.CONNECT.LOCAL_PORT_UNAVAILABLE")];
      case Attempted(port) =>
        var attempt := check(target, port);
        result, alerts := TriedResult(target, port, attempt), TryAlerts(target, attempt);
    }
  }

  method CheckTargets(targets: seq<Check>, connectPort: int, random: Random, check: (Check, int) -> Attempt)
    returns (results: seq<Result>, alerts: seq<Alert>)
    ensures Shows(targets, BaseOf(connectPort, |targets|, random), check, results, |targets|)
    ensures alerts == Alerts(targets, BaseOf(connectPort, |targets|, random), check, |targets|)
  {
    hide CheckSignature, SharedResult, Untested, TriedResult, SkipAlerts, TryAlerts, RandomBasePort, Remembers,
      ModeOf, Offset, IsTriedPod, Branch, Shows;
    results, alerts := [], [];
    var base := connectPort;
    if base == 0 {
      base := RandomBasePort(|targets|, random);
    }
    var offset := 0;
    var checked: map<string, nat> := map[];
    Opening(targets, base, check);
    for i := 0 to |targets|
      invariant offset == Offset(targets, base, i) && |results| == i
      invariant Remembers(targets, base, i, checked)
      invariant Shows(targets, base, check, results, i)
      invariant alerts == Alerts(targets, base, check, i)
    {
      var target := targets[i];
      RemembersStep(targets, base, i, checked);
      PlanStep(targets, base, i, checked);
      var mode := Branch(target, base + offset, checked);
      var result, raised := RunTarget(target, mode, results, check);
      Recorded(targets, base, check, results, i);
      ShowsStep(targets, base, check, results, i, result);
      results, alerts := results + [result], alerts + raised;
      if UsesPort(mode) {
        offset := offset + 1;
      }
      if mode.Attempted? && target.group == PodGroup {
        checked := checked[CheckSignature(target) := i];
      }
    }
  }

  lemma Opening(targets: seq<Check>, base: int, check: (Check, int) -> Attempt)
    ensures Offset(targets, base, 0) == 0 && Remembers(targets, base, 0, map[]) && Shows(targets, base, check, [], 0)
  {
  }

  lemma Recorded(targets: seq<Check>, base: int, check: (Check, int) -> Attempt, results: seq<Result>, k: nat)
    requires k < |targets| && Shows(targets, base, check, results, k)
    ensures ModeOf(targets, base, k).SharedWith? ==>
              var origin := ModeOf(targets, base, k).origin;
              origin < k && results[origin] == ResultAt(targets, base, check, origin)
  {
  }

  // ---------------------------------------------------------------------------
  // Laws

  function PortAt(targets: seq<Check>, base: int, k: nat): int
    requires k < |targets|
  {
    base + Offset(targets, base, k)
  }

  lemma {:induction false} OffsetGrows(targets: seq<Check>, base: int, j: nat, k: nat)
    requires j <= k <= |targets|
    ensures Offset(targets, base, j) <= Offset(targets, base, k)
    ensures j < k && UsesPort(ModeOf(targets, base, j)) ==> Offset(targets, base, j) < Offset(targets, base, k)
  {
    hide ModeOf;
    if j < k {
      OffsetGrows(targets, base, j, k - 1);
    }
  }

  /** Checks that are tried, or refused for their port, use increasing ports, so no two share one. */
  lemma PortsIncrease(targets: seq<Check>, base: int, j: nat, k: nat)
    requires j < k < |targets|
    requires UsesPort(ModeOf(targets, base, j)) && UsesPort(ModeOf(targets, base, k))
    ensures ModeOf(targets, base, j).port < ModeOf(targets, base, k).port
  {
    OffsetGrows(targets, base, j, k);
    PortIsOffset(targets, base, j);
    PortIsOffset(targets, base, k);
    hide ModeOf;
  }

  lemma PortIsOffset(targets: seq<Check>, base: int, k: nat)
    requires k < |targets|
    ensures UsesPort(ModeOf(targets, base, k)) ==> ModeOf(targets, base, k).port == PortAt(targets, base, k)
    ensures ModeOf(targets, base, k).Attempted? ==> ModeOf(targets, base, k).port <= MAX_PORT
    ensures ModeOf(targets, base, k).OutOfRange? ==> ModeOf(targets, base, k).port > MAX_PORT
  {
  }

  lemma {:induction false} LastTriedFinds(targets: seq<Check>, base: int, k: nat, signature: string)
    requires k <= |targets|
    ensures LastTried(targets, base, k, signature).Some? <==>
              exists j :: 0 <= j < k && IsTriedPod(targets, base, j) && CheckSignature(targets[j]) == signature
    ensures LastTried(targets, base, k, signature).Some? ==>
              var j := LastTried(targets, base, k, signature).value;
              IsTriedPod(targets, base, j) && CheckSignature(targets[j]) == signature
    decreases k
  {
    hide IsTriedPod, CheckSignature;
    if k > 0 {
      LastTriedFinds(targets, base, k - 1, signature);
    }
  }

  /** Pod targets are never shared; an active Service target is shared exactly when an
      earlier Pod target with its signature was tried, and then shows that result. */
  lemma SharingIsJustified(targets: seq<Check>, base: int, check: (Check, int) -> Attempt, k: nat)
    requires k < |targets|
    ensures ModeOf(targets, base, k).SharedWith? <==>
              && targets[k].active && targets[k].group == ServiceGroup
              && exists j :: 0 <= j < k && IsTriedPod(targets, base, j) && CheckSignature(targets[j]) == CheckSignature(targets[k])
    ensures ModeOf(targets, base, k).SharedWith? ==>
              var j := ModeOf(targets, base, k).origin;
              && j < k && IsTriedPod(targets, base, j) && CheckSignature(targets[j]) == CheckSignature(targets[k])
              && ResultAt(targets, base, check, k) == SharedResult(ResultAt(targets, base, check, j), targets[k])
  {
    LastTriedFinds(targets, base, k, CheckSignature(targets[k]));
    hide IsTriedPod, CheckSignature, SharedResult, LastTried, Offset;
  }

  /** A shared result is what the tried Pod target was answered, and that was for the
      same request if and only if the separators lie alike in the two requests. */
  lemma SharedRequestExactly(targets: seq<Check>, base: int, check: (Check, int) -> Attempt, k: nat)
    requires k < |targets| && ModeOf(targets, base, k).SharedWith?
    ensures var j := ModeOf(targets, base, k).origin;
            && j < k && (targets[j].request == targets[k].request <==> SameLayout(targets[j].request, targets[k].request))
            && ShowsAnswerOf(targets, base, check, k, j)
  {
    SharingIsJustified(targets, base, check, k);
    var j := ModeOf(targets, base, k).origin;
    PortIsOffset(targets, base, j);
    SignatureIdentifiesExactly(targets[j], targets[k]);
    TriedShows(targets, base, check, j);
    hide ResultAt, ModeOf, CheckSignature, SameLayout;
  }

  /** Target k shows the answer that target j got through its own tunnel. */
  ghost predicate ShowsAnswerOf(targets: seq<Check>, base: int, check: (Check, int) -> Attempt, k: nat, j: nat)
    requires j < |targets| && k < |targets|
  {
    var r, a := ResultAt(targets, base, check, k), check(targets[j], PortAt(targets, base, j));
    && r.shared && r.target == targets[k] && r.localPort == PortAt(targets, base, j)
    && r.tested == !a.failed && r.successful == a.successful && r.statusCode == a.statusCode
  }

  /** ... so among requests that can be sent it shows what the same request was answered. */
  lemma SharedRequestIsEqual(targets: seq<Check>, base: int, check: (Check, int) -> Attempt, k: nat)
    requires k < |targets| && (forall t :: t in targets ==> Sendable(t.request))
    requires ModeOf(targets, base, k).SharedWith?
    ensures var j := ModeOf(targets, base, k).origin;
            j < k && targets[j].request == targets[k].request && ShowsAnswerOf(targets, base, check, k, j)
  {
    SharedRequestExactly(targets, base, check, k);
    SharingIsJustified(targets, base, check, k);
    var j := ModeOf(targets, base, k).origin;
    hide ResultAt, ModeOf, CheckSignature, Sendable, ShowsAnswerOf, SameLayout;
    assert targets[j] in targets && targets[k] in targets;
    SignatureIdentifies(targets[j], targets[k]);
  }

  function PodCheck(r: Request): Check
  {
    Check(PodGroup, r, true, true, false, false, "", "")
  }

  function ServiceCheck(r: Request): Check
  {
    PodCheck(r).(group := ServiceGroup, fromProbe := false)
  }

  /** A line feed in the header of one probe lets a Service target show the answer to
      another request, although its own request was tried as well. */
  lemma LineFeedSharesOtherRequest(r: Request, base: int)
    requires 1 <= base < MAX_PORT
    ensures var one := r.(headers := [Header("A", "b\nC: d")]);
            var two := r.(headers := [Header("A", "b"), Header("C", "d")]);
            var targets := [PodCheck(two), PodCheck(one), ServiceCheck(two)];
            ModeOf(targets, base, 2) == SharedWith(1) && targets[1].request != targets[2].request
  {
    var one := r.(headers := [Header("A", "b\nC: d")]);
    var two := r.(headers := [Header("A", "b"), Header("C", "d")]);
    var targets := [PodCheck(two), PodCheck(one), ServiceCheck(two)];
    LineFeedMisleads(r);
    assert CheckSignature(targets[1]) == CheckSignature(targets[2]);
    hide CheckSignature, SignatureParts;
    assert ModeOf(targets, base, 0) == Attempted(base);
    assert Offset(targets, base, 1) == 1;
    assert ModeOf(targets, base, 1) == Attempted(base + 1);
    assert LastTried(targets, base, 2, CheckSignature(targets[2])) == Some(1);
  }

  lemma TriedShows(targets: seq<Check>, base: int, check: (Check, int) -> Attempt, j: nat)
    requires j < |targets| && IsTriedPod(targets, base, j)
    ensures ResultAt(targets, base, check, j)
            == TriedResult(targets[j], ModeOf(targets, base, j).port, check(targets[j], ModeOf(targets, base, j).port))
  {
  }

  /** With a base that leaves room for all targets no target is out of range. */
  lemma PortsFit(targets: seq<Check>, base: int, k: nat)
    requires k < |targets| && base + |targets| - 1 <= MAX_PORT
    ensures !ModeOf(targets, base, k).OutOfRange?
  {
  }

  // ---------------------------------------------------------------------------
  // A port for an extra check

  function HighestPort(results: seq<Result>): int
  {
    if results == [] then 0 else Max(HighestPort(results[..|results| - 1]), results[|results| - 1].localPort)
  }

  method NextLocalPort(results: seq<Result>, random: Random) returns (port: int)
    ensures port == NextPort(results, random)
  {
    var highest := 0;
    for i := 0 to |results|
      invariant highest == HighestPort(results[..i])
    {
      PrefixStep(results, i);
      highest := Max(highest, results[i].localPort);
    }
    assert results[..|results|] == results;
    if highest < 1 || highest >= MAX_PORT {
      return RandomBasePort(1, random);
    }
    return highest + 1;
  }

  lemma {:induction false} HighestIsMaximum(results: seq<Result>)
    ensures forall i :: 0 <= i < |results| ==> results[i].localPort <= HighestPort(results)
    ensures HighestPort(results) == 0 || exists i :: 0 <= i < |results| && results[i].localPort == HighestPort(results)
  {
    if results != [] {
      var n := |results| - 1;
      HighestIsMaximum(results[..n]);
      assert forall i :: 0 <= i < n ==> results[..n][i] == results[i];
      if i :| 0 <= i < n && results[..n][i].localPort == HighestPort(results[..n]) {
        assert results[i].localPort == HighestPort(results[..n]);
      }
    }
  }

  /** The port of a result: none, or one from the base on. */
  lemma {:induction false} ResultPort(targets: seq<Check>, base: int, check: (Check, int) -> Attempt, k: nat)
    requires k < |targets| && base >= 1
    ensures var p := ResultAt(targets, base, check, k).localPort; p == 0 || base <= p < base + |targets|
    decreases k
  {
    match ModeOf(targets, base, k) {
      case SharedWith(origin) =>
        SharedWithEarlier(targets, base, k);
        ResultPort(targets, base, check, origin);
      case _ =>
        PortIsOffset(targets, base, k);
    }
  }

  lemma HighestIsInRange(targets: seq<Check>, base: int, check: (Check, int) -> Attempt, results: seq<Result>)
    requires base >= 1 && Shows(targets, base, check, results, |targets|)
    ensures HighestPort(results) == 0 || HighestPort(results) < base + |targets|
  {
    HighestIsMaximum(results);
    hide ResultAt, HighestPort;
    if HighestPort(results) != 0 {
      var i :| 0 <= i < |results| && results[i].localPort == HighestPort(results);
      ResultPort(targets, base, check, i);
    }
  }

  function NextPort(results: seq<Result>, random: Random): int
  {
    if 1 <= HighestPort(results) < MAX_PORT then HighestPort(results) + 1 else RandomBasePort(1, random)
  }

  lemma SingleDraw(random: Random)
    requires Draws(random)
    ensures FIRST_PORT <= RandomBasePort(1, random) <= 59999
  {
  }

  /** The port has been used: some source of random numbers makes it that of result k. */
  ghost predicate CanRepeat(results: seq<Result>, k: nat)
    requires k < |results|
  {
    exists random: Random :: Draws(random) && NextPort(results, random) == results[k].localPort
  }

  /** A source that draws the given port. */
  function Drawing(port: int): Random
  {
    n => if n == 50000 then Some(port - FIRST_PORT) else None
  }

  lemma DrawingDraws(port: int)
    requires FIRST_PORT <= port <= 59999
    ensures Draws(Drawing(port)) && RandomBasePort(1, Drawing(port)) == port
  {
  }

  /** The next port can repeat that of result k if and only if the highest port leaves
      no room above it and the port of k lies in the range that is drawn from. */
  lemma RepeatsExactly(results: seq<Result>, k: nat)
    requires k < |results|
    ensures CanRepeat(results, k)
            <==> HighestPort(results) >= MAX_PORT && FIRST_PORT <= results[k].localPort <= 59999
  {
    HighestIsMaximum(results);
    hide HighestPort, RandomBasePort, Draws, Drawing;
    var p := results[k].localPort;
    assert p <= HighestPort(results);
    if HighestPort(results) >= MAX_PORT && FIRST_PORT <= p <= 59999 {
      DrawingDraws(p);
      assert NextPort(results, Drawing(p)) == p;
    }
    if CanRepeat(results, k) {
      var random: Random :| Draws(random) && NextPort(results, random) == p;
      SingleDraw(random);
    }
  }

  /** The port for an extra check can be one that the results already use if and only
      if they reach the last port and use one of the range that is drawn from. */
  lemma NextPortCollidesExactly(results: seq<Result>)
    ensures (exists k :: 0 <= k < |results| && CanRepeat(results, k))
            <==> HighestPort(results) >= MAX_PORT
                 && exists k :: 0 <= k < |results| && FIRST_PORT <= results[k].localPort <= 59999
  {
    hide CanRepeat, HighestPort;
    forall k | 0 <= k < |results|
      ensures CanRepeat(results, k) <==> HighestPort(results) >= MAX_PORT && FIRST_PORT <= results[k].localPort <= 59999
    {
      RepeatsExactly(results, k);
    }
  }

  /** A round that uses ports on both sides takes more than 5536 targets, so after any
      smaller round the next port is free. */
  lemma NextPortIsFree(targets: seq<Check>, base: int, check: (Check, int) -> Attempt, results: seq<Result>,
                       random: Random, k: nat)
    requires Draws(random) && base >= 1 && |targets| <= 5536 && k < |targets|
    requires Shows(targets, base, check, results, |targets|)
    ensures 1 <= NextPort(results, random) <= MAX_PORT && NextPort(results, random) != results[k].localPort
  {
    HighestIsInRange(targets, base, check, results);
    ResultPort(targets, base, check, k);
    RepeatsExactly(results, k);
    SingleDraw(random);
    hide ResultAt, HighestPort, RandomBasePort;
    assert !CanRepeat(results, k);
  }

  lemma {:induction false} ActivePodsUseEveryPort(targets: seq<Check>, base: int, k: nat)
    requires k <= |targets| && forall j :: 0 <= j < |targets| ==> targets[j].active && targets[j].group == PodGroup
    ensures Offset(targets, base, k) == k
    ensures k < |targets| ==>
              ModeOf(targets, base, k) == if base + k > MAX_PORT then OutOfRange(base + k) else Attempted(base + k)
  {
    if k > 0 {
      ActivePodsUseEveryPort(targets, base, k - 1);
    }
  }

  lemma FullRoundPorts(targets: seq<Check>, check: (Check, int) -> Attempt, results: seq<Result>)
    requires |targets| == 5537 && forall j :: 0 <= j < |targets| ==> targets[j].active && targets[j].group == PodGroup
    requires Shows(targets, 59999, check, results, |targets|)
    ensures results[0].localPort == 59999 && results[5536].localPort == MAX_PORT
  {
    ActivePodsUseEveryPort(targets, 59999, 0);
    ActivePodsUseEveryPort(targets, 59999, 5536);
    hide ModeOf, Offset;
  }

  /** The bound of 5536 cannot be raised: a round of one target more can collide. */
  lemma NextPortMayCollide(targets: seq<Check>, check: (Check, int) -> Attempt, results: seq<Result>)
    requires |targets| == 5537 && forall j :: 0 <= j < |targets| ==> targets[j].active && targets[j].group == PodGroup
    requires Shows(targets, 59999, check, results, |targets|)
    ensures exists k :: 0 <= k < |results| && CanRepeat(results, k)
  {
    FullRoundPorts(targets, check, results);
    HighestIsMaximum(results);
    NextPortCollidesExactly(results);
    hide HighestPort, Shows, CanRepeat;
  }
}
