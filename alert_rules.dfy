/** The alert de-duplication rules of the pool monitor, as pure functions.

    The monitor keeps one flag per condition (`last_alerts`). Each check takes
    one reading, compares it with a fixed threshold, updates the flags of its
    own conditions and sends at most one alert per condition. An alert goes
    out only on a flag's false-to-true edge; clearing a flag is silent except
    for the pool, whose recovery is announced. `Monitor.AlertMonitor` is
    proved to follow these functions. */
module AlertRules {
  import opened Wrappers
  import opened Text

  // ---------------------------------------------------------------------
  // State

  /** The keys of `last_alerts`. */
  datatype Condition = DiskCritical | DiskWarning | PoolOffline | HighCpu | HighMem | NodeDisconnected

  /** `last_alerts`: a key that was never written reads as false, as
      `dict.get` returns `None` for it. */
  type Flags = map<Condition, bool>

  predicate Flag(f: Flags, c: Condition) {
    c in f && f[c]
  }

  /** The entry of `c` is the same in `f` and `g`, including its absence. */
  predicate SameEntry(f: Flags, g: Flags, c: Condition) {
    (c in f <==> c in g) && (c in f ==> f[c] == g[c])
  }

  // ---------------------------------------------------------------------
  // Readings. Percentages are in tenths of a percent: the system endpoints
  // report them rounded to one decimal.

  const CriticalDisk := 900
  const WarningDisk := 800
  const HighCpuLevel := 900
  const HighMemLevel := 900

  /** The reply of `/api/admin/system/disk`: `DiskFailed` when the request or
      its JSON decoding raised, otherwise the keys the check reads. */
  datatype DiskReply = DiskFailed | DiskData(usagePercent: Option<int>, free: Option<string>, used: Option<string>, total: Option<string>)

  /** The reply of the pool API: a status code or a `RequestException`. */
  datatype PoolReply = PoolRequestError(reason: string) | PoolStatus(code: int)

  /** `metrics.cpuUsage`: absent, the string `'N/A'`, or a number. */
  datatype CpuReading = CpuAbsent | CpuNotAvailable | CpuPercent(tenths: int)

  /** `metrics.memory`: absent, the string `'N/A'`, or a dictionary whose
      keys may each be absent. */
  datatype MemReading = MemAbsent | MemNotAvailable | MemData(usagePercent: Option<int>, used: Option<string>, total: Option<string>)

  /** The reply of `/api/admin/system/performance`. */
  datatype PerfReply = PerfFailed | PerfData(cpu: CpuReading, memory: MemReading)

  /** The node check's own request to the pool API: `NodeFailed` when it
      raised, otherwise the status and, per listed pool, its
      `networkStats.connectedPeers` (`None` where a key on the way is absent). */
  datatype NodeReply = NodeFailed | NodeStatus(code: int, pools: seq<Option<int>>)

  datatype Reading = Disk(disk: DiskReply) | Pool(pool: PoolReply) | Perf(perf: PerfReply) | Node(node: NodeReply)

  // ---------------------------------------------------------------------
  // Alerts

  /** One call of `send_alert`, one constructor per message the monitor
      writes. */
  datatype Alert =
    | DiskCriticalAlert(usage: int, free: string, used: string, total: string)
    | DiskWarningAlert(usage: int, free: string)
    | PoolStatusAlert(code: int)
    | PoolUnreachableAlert(reason: string)
    | PoolRecoveredAlert
    | HighCpuAlert(cpu: int)
    | HighMemAlert(usage: int, used: string, total: string)
    | NoPeersAlert
  {
    /** The condition whose edge the alert announces. */
    function Announces(): Condition {
      match this
      case DiskCriticalAlert(_, _, _, _) => DiskCritical
      case DiskWarningAlert(_, _) => DiskWarning
      case PoolStatusAlert(_) => PoolOffline
      case PoolUnreachableAlert(_) => PoolOffline
      case PoolRecoveredAlert => PoolOffline
      case HighCpuAlert(_) => HighCpu
      case HighMemAlert(_, _, _) => HighMem
      case NoPeersAlert => NodeDisconnected
    }

    /** The `alert_type` passed to the channels. */
    function Kind(): string {
      match Announces()
      case DiskCritical => "diskSpaceCritical"
      case DiskWarning => "diskSpaceWarning"
      case PoolOffline => "poolOffline"
      case HighCpu => "highCpuUsage"
      case HighMem => "highMemoryUsage"
      case NodeDisconnected => "nodeDisconnected"
    }

    /** The message text passed to the channels. */
    function Message(): string {
      match this
      case DiskCriticalAlert(u, free, used, total) =>
        "Disk usage is at *" + TenthsToString(u) + "%*!\nFree space: " + free + "\nUsed: " + used + " / " + total
      case DiskWarningAlert(u, free) =>
        "Disk usage is at *" + TenthsToString(u) + "%*\nFree space: " + free + "\nConsider cleanup soon."
      case PoolStatusAlert(code) => "Pool API returned status " + IntToString(code)
      case PoolUnreachableAlert(reason) => "Cannot connect to pool API: " + reason
      case PoolRecoveredAlert => "\U{2705} Pool is back online!"
      case HighCpuAlert(cpu) => "CPU usage is at *" + TenthsToString(cpu) + "%*"
      case HighMemAlert(u, used, total) =>
        "Memory usage is at *" + TenthsToString(u) + "%*\nUsed: " + used + " / " + total
      case NoPeersAlert => "Ergo node has 0 connected peers!"
    }
  }

  /** The pool's recovery notice has the pool's kind but a text no firing
      alert of that kind can have. */
  lemma RecoveryMessageDistinct(a: Alert)
    requires a.Kind() == PoolRecoveredAlert.Kind() && a != PoolRecoveredAlert
    ensures a.Message() != PoolRecoveredAlert.Message()
  {
    assert a.Message()[0] != PoolRecoveredAlert.Message()[0];
  }

  // ---------------------------------------------------------------------
  // One check

  /** The flags after a check, and the alerts it sent, in order. */
  datatype Step = Step(flags: Flags, sent: seq<Alert>)

  /** Raise `c`: send `a` only if `c` was not already set, then set it. */
  function Raise(f: Flags, c: Condition, a: Alert): (s: Step)
    ensures Flag(s.flags, c)
    ensures s.sent == if Flag(f, c) then [] else [a]
    ensures forall d :: d != c ==> SameEntry(f, s.flags, d)
  {
    if Flag(f, c) then Step(f, []) else Step(f[c := true], [a])
  }

  /** Clear `c` silently. */
  function Clear(f: Flags, c: Condition): (g: Flags)
    ensures !Flag(g, c)
    ensures forall d :: d != c ==> SameEntry(f, g, d)
  {
    f[c := false]
  }

  /** `check_disk_space`. A reply without `usagePercent` counts as 0. At 90%
      or more only the critical flag is raised; the warning flag is left as it
      is, so both may be set. Between 80% and 90% the warning is raised and
      the critical flag cleared; below 80% both are cleared. */
  function CheckDisk(f: Flags, r: DiskReply): (s: Step)
    ensures |s.sent| <= 1
    ensures forall c :: c != DiskCritical && c != DiskWarning ==> SameEntry(f, s.flags, c)
    ensures r.DiskFailed? ==> s == Step(f, [])
  {
    match r
    case DiskFailed => Step(f, [])
    case DiskData(u, free, used, total) =>
      var usage := u.GetOr(0);
      if usage >= CriticalDisk then
        Raise(f, DiskCritical, DiskCriticalAlert(usage, free.GetOr("N/A"), used.GetOr("N/A"), total.GetOr("N/A")))
      else if usage >= WarningDisk then
        var w := Raise(f, DiskWarning, DiskWarningAlert(usage, free.GetOr("N/A")));
        Step(Clear(w.flags, DiskCritical), w.sent)
      else
        Step(Clear(Clear(f, DiskCritical), DiskWarning), [])
  }

  /** The alert a failed pool reply fires, or `None` for status 200. */
  function PoolFailure(r: PoolReply): (a: Option<Alert>)
    ensures a.Some? <==> !(r.PoolStatus? && r.code == 200)
    ensures a.Some? ==> a.value.Announces() == PoolOffline && a.value != PoolRecoveredAlert
  {
    match r
    case PoolRequestError(reason) => Some(PoolUnreachableAlert(reason))
    case PoolStatus(code) => if code != 200 then Some(PoolStatusAlert(code)) else None
  }

  /** `check_pool_status`. A failure raises `poolOffline`; a 200 clears it,
      announcing the recovery when it was set. */
  function CheckPool(f: Flags, r: PoolReply): (s: Step)
    ensures |s.sent| <= 1
    ensures forall c :: c != PoolOffline ==> SameEntry(f, s.flags, c)
  {
    var failure := PoolFailure(r);
    if failure.Some? then Raise(f, PoolOffline, failure.value)
    else Step(Clear(f, PoolOffline), if Flag(f, PoolOffline) then [PoolRecoveredAlert] else [])
  }

  /** Python truthiness of `metrics.memory`: present, not `'N/A'`, and not
      an empty dictionary. */
  predicate MemoryPresent(m: MemReading) {
    m.MemData? && (m.usagePercent.Some? || m.used.Some? || m.total.Some?)
  }

  /** The memory half of `check_system_performance`: an absent, `'N/A'` or
      empty memory reading leaves the flag alone; a reading without
      `usagePercent` counts as 0. */
  function CheckMemory(f: Flags, m: MemReading): (s: Step)
    ensures |s.sent| <= 1
    ensures forall c :: c != HighMem ==> SameEntry(f, s.flags, c)
    ensures !MemoryPresent(m) ==> s == Step(f, [])
  {
    if !MemoryPresent(m) then Step(f, [])
    else
      var usage := m.usagePercent.GetOr(0);
      if usage >= HighMemLevel then Raise(f, HighMem, HighMemAlert(usage, m.used.GetOr("N/A"), m.total.GetOr("N/A")))
      else Step(Clear(f, HighMem), [])
  }

  /** The CPU half of `check_system_performance`: 90% or more raises
      `highCpu`; every other reading, including an absent, zero or `'N/A'`
      one, clears it. */
  function CheckCpu(f: Flags, cpu: CpuReading): (s: Step)
    ensures |s.sent| <= 1
    ensures forall c :: c != HighCpu ==> SameEntry(f, s.flags, c)
  {
    if cpu.CpuPercent? && cpu.tenths >= HighCpuLevel then Raise(f, HighCpu, HighCpuAlert(cpu.tenths))
    else Step(Clear(f, HighCpu), [])
  }

  /** `check_system_performance`: the CPU check, then the memory check on
      the flags it left. */
  function CheckPerformance(f: Flags, r: PerfReply): (s: Step)
    ensures |s.sent| <= 2
    ensures forall c :: c != HighCpu && c != HighMem ==> SameEntry(f, s.flags, c)
    ensures r.PerfFailed? ==> s == Step(f, [])
  {
    match r
    case PerfFailed => Step(f, [])
    case PerfData(cpu, mem) =>
      var c := CheckCpu(f, cpu);
      var m := CheckMemory(c.flags, mem);
      Step(m.flags, c.sent + m.sent)
  }

  /** `check_node_connection`. Only a 200 reply listing at least one pool is
      judged: zero or absent peers for the first pool raise
      `nodeDisconnected`, any other count clears it. */
  function CheckNode(f: Flags, r: NodeReply): (s: Step)
    ensures |s.sent| <= 1
    ensures forall c :: c != NodeDisconnected ==> SameEntry(f, s.flags, c)
    ensures r.NodeFailed? || (r.NodeStatus? && (r.code != 200 || r.pools == [])) ==> s == Step(f, [])
  {
    match r
    case NodeFailed => Step(f, [])
    case NodeStatus(code, pools) =>
      if code != 200 || pools == [] then Step(f, [])
      else if pools[0].GetOr(0) == 0 then Raise(f, NodeDisconnected, NoPeersAlert)
      else Step(Clear(f, NodeDisconnected), [])
  }

  /** The conditions a check reads and writes. */
  function Family(r: Reading): set<Condition> {
    match r
    case Disk(_) => {DiskCritical, DiskWarning}
    case Pool(_) => {PoolOffline}
    case Perf(_) => {HighCpu, HighMem}
    case Node(_) => {NodeDisconnected}
  }

  function Check(f: Flags, r: Reading): (s: Step)
    ensures |s.sent| <= 2
    ensures forall c :: c !in Family(r) ==> SameEntry(f, s.flags, c)
  {
    match r
    case Disk(d) => CheckDisk(f, d)
    case Pool(p) => CheckPool(f, p)
    case Perf(q) => CheckPerformance(f, q)
    case Node(n) => CheckNode(f, n)
  }

  // ---------------------------------------------------------------------
  // Runs of checks

  /** The checks applied in order; the alerts of every check, concatenated. */
  function Run(f: Flags, rs: seq<Reading>): (r: Step)
    ensures |r.sent| <= 2 * |rs|
    decreases |rs|
  {
    if rs == [] then Step(f, [])
    else
      var s := Check(f, rs[0]);
      var t := Run(s.flags, rs[1..]);
      Step(t.flags, s.sent + t.sent)
  }

  /** A run split in two: the second part starts from the flags the first
      left, and the alerts follow each other. */
  lemma {:induction false} RunAppend(f: Flags, a: seq<Reading>, b: seq<Reading>)
    ensures var s := Run(f, a); var t := Run(s.flags, b);
      Run(f, a + b) == Step(t.flags, s.sent + t.sent)
    decreases |a|
  {
    if a == [] {
      assert a + b == b;
    } else {
      assert (a + b)[0] == a[0] && (a + b)[1..] == a[1..] + b;
      var g := Check(f, a[0]);
      RunAppend(g.flags, a[1..], b);
      var s := Run(g.flags, a[1..]);
      var t := Run(s.flags, b);
      assert g.sent + (s.sent + t.sent) == (g.sent + s.sent) + t.sent;
    }
  }

  /** A run extended by one reading. */
  lemma RunSnoc(f: Flags, rs: seq<Reading>, r: Reading)
    ensures var s := Run(f, rs); var t := Check(s.flags, r);
      Run(f, rs + [r]) == Step(t.flags, s.sent + t.sent)
  {
    RunAppend(f, rs, [r]);
    var t := Check(Run(f, rs).flags, r);
    assert Run(Run(f, rs).flags, [r]) == Step(t.flags, t.sent + []) by {
      assert [r][1..] == [];
    }
    assert t.sent + [] == t.sent;
  }

  /** One iteration of the monitor's loop: pool, disk, performance, node. */
  function TickReadings(p: PoolReply, d: DiskReply, q: PerfReply, n: NodeReply): seq<Reading> {
    [Pool(p), Disk(d), Perf(q), Node(n)]
  }

  /** A run of four readings runs their four checks one after the other,
      each from the flags the previous one left, and sends their alerts in
      that order. */
  lemma {:induction false} RunOfFourSteps(f: Flags, a: Reading, b: Reading, c: Reading, d: Reading)
    ensures var s1 := Check(f, a);
      var s2 := Check(s1.flags, b);
      var s3 := Check(s2.flags, c);
      var s4 := Check(s3.flags, d);
      Run(f, [a, b, c, d]) == Step(s4.flags, s1.sent + s2.sent + s3.sent + s4.sent)
  {
    var s1 := Check(f, a);
    var s2 := Check(s1.flags, b);
    var s3 := Check(s2.flags, c);
    var s4 := Check(s3.flags, d);
    RunCons(s3.flags, d, []);
    assert [d] + [] == [d] && s4.sent + [] == s4.sent;
    assert Run(s3.flags, [d]) == Step(s4.flags, s4.sent);
    RunCons(s2.flags, c, [d]);
    assert [c] + [d] == [c, d];
    assert Run(s2.flags, [c, d]) == Step(s4.flags, s3.sent + s4.sent);
    RunCons(s1.flags, b, [c, d]);
    assert [b] + [c, d] == [b, c, d];
    assert Run(s1.flags, [b, c, d]) == Step(s4.flags, s2.sent + (s3.sent + s4.sent));
    RunCons(f, a, [b, c, d]);
    assert [a] + [b, c, d] == [a, b, c, d];
    Regroup(s1.sent, s2.sent, s3.sent, s4.sent);
  }

  lemma Regroup<T>(a: seq<T>, b: seq<T>, c: seq<T>, d: seq<T>)
    ensures a + (b + (c + d)) == a + b + c + d
  {
  }

  /** A run starts with the check of its first reading. */
  lemma RunCons(f: Flags, r: Reading, rest: seq<Reading>)
    ensures var s := Check(f, r); var t := Run(s.flags, rest);
      Run(f, [r] + rest) == Step(t.flags, s.sent + t.sent)
  {
    assert ([r] + rest)[0] == r && ([r] + rest)[1..] == rest;
  }

  /** At process start no condition is set. */
  const Initial: Flags := map[]

  // ---------------------------------------------------------------------
  // Edge-triggered notification

  predicate IsRecovery(a: Alert) {
    a.PoolRecoveredAlert?
  }

  /** How many alerts in `sent` announce that `c` went up. */
  function Firings(sent: seq<Alert>, c: Condition): nat {
    if sent == [] then 0
    else (if !IsRecovery(sent[0]) && sent[0].Announces() == c then 1 else 0) + Firings(sent[1..], c)
  }

  /** How many recovery notices `sent` holds. */
  function Recoveries(sent: seq<Alert>): nat {
    if sent == [] then 0 else (if IsRecovery(sent[0]) then 1 else 0) + Recoveries(sent[1..])
  }

  lemma {:induction false} FiringsAppend(a: seq<Alert>, b: seq<Alert>, c: Condition)
    ensures Firings(a + b, c) == Firings(a, c) + Firings(b, c)
    ensures Recoveries(a + b) == Recoveries(a) + Recoveries(b)
    decreases |a|
  {
    if a != [] {
      assert (a + b)[0] == a[0] && (a + b)[1..] == a[1..] + b;
      FiringsAppend(a[1..], b, c);
    } else {
      assert a + b == b;
    }
  }

  /** How often `c` goes from unset to set along the run. */
  function Rises(f: Flags, rs: seq<Reading>, c: Condition): nat
    decreases |rs|
  {
    if rs == [] then 0
    else
      var g := Check(f, rs[0]).flags;
      (if !Flag(f, c) && Flag(g, c) then 1 else 0) + Rises(g, rs[1..], c)
  }

  /** How often `c` goes from set to unset along the run. */
  function Falls(f: Flags, rs: seq<Reading>, c: Condition): nat
    decreases |rs|
  {
    if rs == [] then 0
    else
      var g := Check(f, rs[0]).flags;
      (if Flag(f, c) && !Flag(g, c) then 1 else 0) + Falls(g, rs[1..], c)
  }

  function Edge(f: Flags, g: Flags, c: Condition): nat {
    if !Flag(f, c) && Flag(g, c) then 1 else 0
  }

  /** Two successive updates of which at least one leaves `c` alone rise
      where their composition rises. */
  lemma EdgeCompose(f: Flags, g: Flags, h: Flags, c: Condition)
    requires SameEntry(f, g, c) || SameEntry(g, h, c)
    ensures Edge(f, g, c) + Edge(g, h, c) == Edge(f, h, c)
  {
  }

  /** Sends an alert for `c` exactly when `c` goes up, and a recovery notice
      exactly when the pool flag goes down. */
  predicate Announced(f: Flags, s: Step, c: Condition) {
    && Firings(s.sent, c) == Edge(f, s.flags, c)
    && Recoveries(s.sent) == Edge(s.flags, f, PoolOffline)
  }

  lemma RaiseEdges(f: Flags, d: Condition, a: Alert, c: Condition)
    requires a.Announces() == d && !IsRecovery(a)
    ensures Announced(f, Raise(f, d, a), c)
  {
  }

  lemma ClearEdges(f: Flags, d: Condition, c: Condition)
    requires d != PoolOffline
    ensures Announced(f, Step(Clear(f, d), []), c)
  {
  }

  lemma DiskEdges(f: Flags, r: DiskReply, c: Condition)
    ensures Announced(f, CheckDisk(f, r), c)
  {
    match r
    case DiskFailed =>
    case DiskData(u, free, used, total) =>
      var usage := u.GetOr(0);
      if usage >= CriticalDisk {
        RaiseEdges(f, DiskCritical, DiskCriticalAlert(usage, free.GetOr("N/A"), used.GetOr("N/A"), total.GetOr("N/A")), c);
      } else if usage >= WarningDisk {
        var w := Raise(f, DiskWarning, DiskWarningAlert(usage, free.GetOr("N/A")));
        RaiseEdges(f, DiskWarning, DiskWarningAlert(usage, free.GetOr("N/A")), c);
        ClearEdges(w.flags, DiskCritical, c);
        EdgeCompose(f, w.flags, Clear(w.flags, DiskCritical), c);
        EdgeCompose(Clear(w.flags, DiskCritical), w.flags, f, PoolOffline);
      } else {
        ClearEdges(f, DiskCritical, c);
        ClearEdges(Clear(f, DiskCritical), DiskWarning, c);
        EdgeCompose(f, Clear(f, DiskCritical), Clear(Clear(f, DiskCritical), DiskWarning), c);
      }
  }

  lemma PoolEdges(f: Flags, r: PoolReply, c: Condition)
    ensures Announced(f, CheckPool(f, r), c)
  {
    var failure := PoolFailure(r);
    if failure.Some? {
      RaiseEdges(f, PoolOffline, failure.value, c);
    }
  }

  lemma MemoryEdges(f: Flags, m: MemReading, c: Condition)
    ensures Announced(f, CheckMemory(f, m), c)
  {
    if MemoryPresent(m) {
      var usage := m.usagePercent.GetOr(0);
      if usage >= HighMemLevel {
        RaiseEdges(f, HighMem, HighMemAlert(usage, m.used.GetOr("N/A"), m.total.GetOr("N/A")), c);
      } else {
        ClearEdges(f, HighMem, c);
      }
    }
  }

  lemma PerformanceEdges(f: Flags, r: PerfReply, c: Condition)
    ensures Announced(f, CheckPerformance(f, r), c)
  {
    match r
    case PerfFailed =>
    case PerfData(cpu, mem) =>
      var cs := CheckCpu(f, cpu);
      if cpu.CpuPercent? && cpu.tenths >= HighCpuLevel {
        RaiseEdges(f, HighCpu, HighCpuAlert(cpu.tenths), c);
      } else {
        ClearEdges(f, HighCpu, c);
      }
      var ms := CheckMemory(cs.flags, mem);
      MemoryEdges(cs.flags, mem, c);
      FiringsAppend(cs.sent, ms.sent, c);
      EdgeCompose(f, cs.flags, ms.flags, c);
      EdgeCompose(ms.flags, cs.flags, f, PoolOffline);
  }

  lemma NodeEdges(f: Flags, r: NodeReply, c: Condition)
    ensures Announced(f, CheckNode(f, r), c)
  {
    if r.NodeStatus? && r.code == 200 && r.pools != [] {
      if r.pools[0].GetOr(0) == 0 {
        RaiseEdges(f, NodeDisconnected, NoPeersAlert, c);
      } else {
        ClearEdges(f, NodeDisconnected, c);
      }
    }
  }

  /** Every check announces exactly the edges of the flags it updates. */
  lemma CheckEdges(f: Flags, r: Reading, c: Condition)
    ensures Announced(f, Check(f, r), c)
  {
    match r
    case Disk(d) => DiskEdges(f, d, c);
    case Pool(p) => PoolEdges(f, p, c);
    case Perf(q) => PerformanceEdges(f, q, c);
    case Node(n) => NodeEdges(f, n, c);
  }

  /** Along any run, the alerts announcing `c` are exactly its rises, and the
      recovery notices exactly the pool's falls: a condition that stays set
      is never announced twice, and no other clear is announced. */
  lemma {:induction false} RunEdges(f: Flags, rs: seq<Reading>, c: Condition)
    ensures Firings(Run(f, rs).sent, c) == Rises(f, rs, c)
    ensures Recoveries(Run(f, rs).sent) == Falls(f, rs, PoolOffline)
    decreases |rs|
  {
    if rs != [] {
      var s := Check(f, rs[0]);
      CheckEdges(f, rs[0], c);
      RunEdges(s.flags, rs[1..], c);
      FiringsAppend(s.sent, Run(s.flags, rs[1..]).sent, c);
    }
  }

  // ---------------------------------------------------------------------
  // Repeated readings send nothing more

  /** Clearing a flag that is present and unset changes nothing. */
  lemma ClearUnset(g: Flags, c: Condition)
    requires c in g && !g[c]
    ensures Clear(g, c) == g
  {
    assert g[c := false] == g;
  }

  /** After a check, any flags that agree with its outcome on the conditions
      it looks at are left as they are by the same reading, and nothing is
      sent. */
  lemma CheckSettles(f: Flags, r: Reading, g: Flags)
    requires forall c :: c in Family(r) ==> SameEntry(Check(f, r).flags, g, c)
    ensures Check(g, r) == Step(g, [])
  {
    var f' := Check(f, r).flags;
    match r
    case Disk(DiskData(u, _, _, _)) =>
      assert SameEntry(f', g, DiskCritical) && SameEntry(f', g, DiskWarning);
      if WarningDisk <= u.GetOr(0) < CriticalDisk {
        ClearUnset(g, DiskCritical);
      } else if u.GetOr(0) < WarningDisk {
        ClearUnset(g, DiskCritical);
        ClearUnset(g, DiskWarning);
      }
    case Pool(p) =>
      assert SameEntry(f', g, PoolOffline);
      if PoolFailure(p).None? {
        ClearUnset(g, PoolOffline);
      }
    case Perf(PerfData(cpu, mem)) =>
      assert SameEntry(f', g, HighCpu) && SameEntry(f', g, HighMem);
      var cs := CheckCpu(f, cpu);
      assert SameEntry(cs.flags, f', HighCpu);
      if !(cpu.CpuPercent? && cpu.tenths >= HighCpuLevel) {
        ClearUnset(g, HighCpu);
      }
      var g' := if cpu.CpuPercent? && cpu.tenths >= HighCpuLevel then g else Clear(g, HighCpu);
      if MemoryPresent(mem) && mem.usagePercent.GetOr(0) < HighMemLevel {
        ClearUnset(g', HighMem);
      }
    case Node(NodeStatus(code, pools)) =>
      assert SameEntry(f', g, NodeDisconnected);
      if code == 200 && pools != [] && pools[0].GetOr(0) != 0 {
        ClearUnset(g, NodeDisconnected);
      }
    case _ =>
  }

  /** A check applied twice to the same reading changes nothing and sends
      nothing the second time. */
  lemma CheckIdempotent(f: Flags, r: Reading)
    ensures var g := Check(f, r).flags; Check(g, r) == Step(g, [])
  {
    CheckSettles(f, r, Check(f, r).flags);
  }

  /** Any number of identical readings sends what the first one sends. */
  lemma {:induction false} RepeatedReading(f: Flags, r: Reading, n: nat)
    requires n >= 1
    ensures Run(f, seq(n, _ => r)) == Check(f, r)
    decreases n
  {
    var rs := seq(n, _ => r);
    var g := Check(f, r).flags;
    if n == 1 {
      assert rs[1..] == [];
    } else {
      assert rs[1..] == seq(n - 1, _ => r);
      RepeatedReading(g, r, n - 1);
      CheckIdempotent(f, r);
    }
  }

  /** A run of checks each of which leaves `g` alone leaves it alone. */
  lemma {:induction false} RunSilent(g: Flags, rs: seq<Reading>)
    requires forall i :: 0 <= i < |rs| ==> Check(g, rs[i]) == Step(g, [])
    ensures Run(g, rs) == Step(g, [])
    decreases |rs|
  {
    if rs != [] {
      RunSilent(g, rs[1..]);
    }
  }

  /** The flags after a run of four checks. */
  lemma {:induction false} RunOfFour(f: Flags, rs: seq<Reading>)
    requires |rs| == 4
    ensures Run(f, rs).flags == Check(Check(Check(Check(f, rs[0]).flags, rs[1]).flags, rs[2]).flags, rs[3]).flags
  {
    var f1 := Check(f, rs[0]).flags;
    var f2 := Check(f1, rs[1]).flags;
    var f3 := Check(f2, rs[2]).flags;
    assert rs[1..][1..] == rs[2..] && rs[2..][1..] == rs[3..] && rs[3..][1..] == [];
    assert Run(f3, rs[3..]).flags == Check(f3, rs[3]).flags;
    assert Run(f2, rs[2..]).flags == Check(f3, rs[3]).flags;
  }

  /** Four checks over pairwise disjoint conditions, repeated, send nothing
      and change nothing. */
  lemma SettledFour(f: Flags, rs: seq<Reading>)
    requires |rs| == 4
    requires forall i, j :: 0 <= i < j < 4 ==> Family(rs[i]) !! Family(rs[j])
    ensures var g := Run(f, rs).flags; Run(g, rs) == Step(g, [])
  {
    var f1 := Check(f, rs[0]).flags;
    var f2 := Check(f1, rs[1]).flags;
    var f3 := Check(f2, rs[2]).flags;
    var g := Check(f3, rs[3]).flags;
    RunOfFour(f, rs);
    assert Family(rs[0]) !! Family(rs[1]) && Family(rs[0]) !! Family(rs[2]) && Family(rs[0]) !! Family(rs[3]);
    assert Family(rs[1]) !! Family(rs[2]) && Family(rs[1]) !! Family(rs[3]) && Family(rs[2]) !! Family(rs[3]);
    CheckSettles(f, rs[0], g);
    CheckSettles(f1, rs[1], g);
    CheckSettles(f2, rs[2], g);
    CheckSettles(f3, rs[3], g);
    RunSilent(g, rs);
  }

  /** Repeating a whole iteration of the loop sends nothing and changes
      nothing: the four checks look at disjoint flags. */
  lemma TickIdempotent(f: Flags, p: PoolReply, d: DiskReply, q: PerfReply, n: NodeReply)
    ensures var g := Run(f, TickReadings(p, d, q, n)).flags;
      Run(g, TickReadings(p, d, q, n)) == Step(g, [])
  {
    SettledFour(f, TickReadings(p, d, q, n));
  }

  // ---------------------------------------------------------------------
  // The pool's alerts alternate

  /** Replays the pool alerts of `sent` from the pool flag `offline`: a
      firing alert needs the pool online, a recovery needs it offline.
      `None` when the alerts are out of order. */
  function ReplayPool(sent: seq<Alert>, offline: bool): Option<bool> {
    if sent == [] then Some(offline)
    else if IsRecovery(sent[0]) then (if offline then ReplayPool(sent[1..], false) else None)
    else if sent[0].Announces() == PoolOffline then (if !offline then ReplayPool(sent[1..], true) else None)
    else ReplayPool(sent[1..], offline)
  }

  lemma {:induction false} ReplayPoolAppend(a: seq<Alert>, b: seq<Alert>, offline: bool)
    requires ReplayPool(a, offline).Some?
    ensures ReplayPool(a + b, offline) == ReplayPool(b, ReplayPool(a, offline).value)
    decreases |a|
  {
    if a != [] {
      assert (a + b)[0] == a[0] && (a + b)[1..] == a[1..] + b;
      if IsRecovery(a[0]) {
        ReplayPoolAppend(a[1..], b, false);
      } else if a[0].Announces() == PoolOffline {
        ReplayPoolAppend(a[1..], b, true);
      } else {
        ReplayPoolAppend(a[1..], b, offline);
      }
    } else {
      assert a + b == b;
    }
  }

  /** Along any run, offline alerts and recovery notices strictly alternate,
      starting from the initial pool flag and ending at the final one. */
  lemma {:induction false} PoolAlertsAlternate(f: Flags, rs: seq<Reading>)
    ensures ReplayPool(Run(f, rs).sent, Flag(f, PoolOffline)) == Some(Flag(Run(f, rs).flags, PoolOffline))
    decreases |rs|
  {
    if rs != [] {
      var s := Check(f, rs[0]);
      assert ReplayPool(s.sent, Flag(f, PoolOffline)) == Some(Flag(s.flags, PoolOffline)) by {
        CheckEdges(f, rs[0], PoolOffline);
        match rs[0]
        case Perf(PerfData(cpu, mem)) =>
          var cs := CheckCpu(f, cpu);
          var ms := CheckMemory(cs.flags, mem);
          ReplayPoolAppend(cs.sent, ms.sent, Flag(f, PoolOffline));
        case _ =>
      }
      PoolAlertsAlternate(s.flags, rs[1..]);
      ReplayPoolAppend(s.sent, Run(s.flags, rs[1..]).sent, Flag(f, PoolOffline));
    }
  }

  // ---------------------------------------------------------------------
  // Scenarios

  function DiskAt(tenths: int): Reading {
    Disk(DiskData(Some(tenths), None, None, None))
  }

  /** 75%, 85%, 85%, 95%, 70%: the warning goes out at the first 85% and the
      critical alert at 95%; the repeat and the final clear are silent. */
  lemma DiskScenario()
    ensures Run(Initial, [DiskAt(750), DiskAt(850), DiskAt(850), DiskAt(950), DiskAt(700)]).sent
         == [DiskWarningAlert(850, "N/A"), DiskCriticalAlert(950, "N/A", "N/A", "N/A")]
  {
  }

  /** 85% then 95% leaves the warning and the critical flag both set. */
  lemma DiskFlagsNotExclusive()
    ensures var g := Run(Initial, [DiskAt(850), DiskAt(950)]).flags;
      Flag(g, DiskWarning) && Flag(g, DiskCritical)
  {
  }

  /** 95%, 85%, 95%: passing through the warning band clears the critical
      flag, so the critical alert is sent again. */
  lemma CriticalResentAfterWarning()
    ensures Run(Initial, [DiskAt(950), DiskAt(850), DiskAt(950)]).sent
         == [DiskCriticalAlert(950, "N/A", "N/A", "N/A"), DiskWarningAlert(850, "N/A"), DiskCriticalAlert(950, "N/A", "N/A", "N/A")]
  {
  }

  /** A disk reply without `usagePercent` clears both disk flags. */
  lemma MissingUsageClears(f: Flags, free: Option<string>, used: Option<string>, total: Option<string>)
    ensures var g := CheckDisk(f, DiskData(None, free, used, total)).flags;
      !Flag(g, DiskCritical) && !Flag(g, DiskWarning)
  {
  }

  /** ok, fail, fail, ok: one offline alert and one recovery notice. */
  lemma PoolScenario()
    ensures Run(Initial, [Pool(PoolStatus(200)), Pool(PoolStatus(503)), Pool(PoolStatus(503)), Pool(PoolStatus(200))]).sent
         == [PoolStatusAlert(503), PoolRecoveredAlert]
  {
  }
}
