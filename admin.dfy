/** The admin dashboard's decisions: the password gate and its one-hour
    session, the status labels drawn from the pool API reply, the class of
    the disk usage bar, and the list of alerts shown beside them.

    Percentages are integers in tenths of a percent, as the server rounds
    them to one decimal; the JSON replies are datatypes in which an absent
    key is `None`. */
module Admin {
  import opened Wrappers

  const SessionTimeout := 3600000

  // ---------------------------------------------------------------------
  // The password gate

  /** The admin page's authentication state. `stored` is the
      `adminSession` timestamp in local storage, `input` the password field,
      `granted` whether the dashboard has been shown. */
  class AdminSession {
    const passwordEnabled: bool
    const password: string
    var stored: Option<int>
    var input: string
    var granted: bool

    constructor (passwordEnabled: bool, password: string, stored: Option<int>, input: string)
      ensures this.passwordEnabled == passwordEnabled && this.password == password
      ensures this.stored == stored && this.input == input && !granted
    {
      this.passwordEnabled := passwordEnabled;
      this.password := password;
      this.stored := stored;
      this.input := input;
      granted := false;
    }

    /** No password is asked for when the gate is disabled or the password
        is empty. */
    predicate Open() {
      !passwordEnabled || password == ""
    }

    /** `checkSession` at time `now`: an open gate grants access without
        looking at storage; otherwise a stored session younger than the
        timeout grants access, and an expired one is removed. */
    method CheckSession(now: int)
      modifies this
      ensures granted <==> old(granted) || Open() || (old(stored).Some? && SessionLive(old(stored).value, now))
      ensures stored == if !Open() && old(stored).Some? && !SessionLive(old(stored).value, now) then None else old(stored)
      ensures input == old(input)
    {
      if !passwordEnabled || password == "" {
        granted := true;
        return;
      }
      if stored.Some? {
        var sessionTime := stored.value;
        if now - sessionTime < SessionTimeout {
          granted := true;
          return;
        } else {
          stored := None;
        }
      }
    }

    /** `authenticate` at time `now`: an open gate grants access; otherwise
        only the exact password grants access and stores the time, and a
        wrong one clears the field. */
    method Authenticate(now: int)
      modifies this
      ensures granted <==> old(granted) || Open() || old(input) == password
      ensures stored == if !Open() && old(input) == password then Some(now) else old(stored)
      ensures input == if !Open() && old(input) != password then "" else old(input)
    {
      if !passwordEnabled || password == "" {
        granted := true;
        return;
      }
      if input == password {
        granted := true;
        stored := Some(now);
      } else {
        input := "";
      }
    }
  }

  /** A session stored at `sessionTime` is still live at `now`. */
  predicate SessionLive(sessionTime: int, now: int) {
    now - sessionTime < SessionTimeout
  }

  /** A login with the right password at `t`, followed by a fresh page
      load at `now` that runs `CheckSession`: access is granted for one
      hour after the login and no longer, and an expired session is
      removed from storage. */
  method LoginThenCheck(passwordEnabled: bool, password: string, t: int, now: int)
      returns (granted: bool, stored: Option<int>)
    requires passwordEnabled && password != ""
    ensures granted <==> now < t + SessionTimeout
    ensures stored == if granted then Some(t) else None
  {
    var login := new AdminSession(passwordEnabled, password, None, password);
    login.Authenticate(t);
    var reload := new AdminSession(passwordEnabled, password, login.stored, "");
    reload.CheckSession(now);
    granted, stored := reload.granted, reload.stored;
  }

  // ---------------------------------------------------------------------
  // Replies of the pool API and of the server's monitoring endpoints

  datatype NetworkStats = NetworkStats(blockHeight: Option<int>, connectedPeers: Option<int>)

  /** `poolHashrate` is a JSON number; only its comparison with zero
      matters here, and an integer keeps its sign. */
  datatype PoolStats = PoolStats(connectedMiners: Option<int>, poolHashrate: Option<int>)

  datatype Pool = Pool(networkStats: Option<NetworkStats>, poolStats: Option<PoolStats>)

  datatype DiskReport = DiskReport(usagePercent: Option<int>)

  /** `metrics.cpuUsage`: absent, the string `'N/A'`, or a percentage. */
  datatype CpuField = CpuMissing | CpuNA | CpuValue(tenths: int)

  /** `metrics.memory`: absent, the string `'N/A'`, or an object with its
      usage. */
  datatype MemoryField = MemoryMissing | MemoryNA | MemoryValue(usagePercent: int)

  datatype Metrics = Metrics(cpuUsage: CpuField, memory: MemoryField)

  datatype Performance = Performance(metrics: Option<Metrics>)

  // ---------------------------------------------------------------------
  // Status labels

  /** The pool is working when the API reply reports a positive block
      height. */
  predicate PoolIsWorking(pool: Option<Pool>)
    ensures PoolIsWorking(pool) <==>
      pool.Some? && pool.value.networkStats.Some? && pool.value.networkStats.value.blockHeight.GetOr(0) > 0
  {
    && pool.Some? && pool.value.networkStats.Some?
    && pool.value.networkStats.value.blockHeight.Some?
    && pool.value.networkStats.value.blockHeight.value > 0
  }

  predicate NodeIsConnected(pool: Option<Pool>)
    ensures NodeIsConnected(pool) <==>
      pool.Some? && pool.value.networkStats.Some? && pool.value.networkStats.value.connectedPeers.GetOr(0) > 0
  {
    && pool.Some? && pool.value.networkStats.Some?
    && pool.value.networkStats.value.connectedPeers.Some?
    && pool.value.networkStats.value.connectedPeers.value > 0
  }

  /** What `fetchPoolData` returns: `null` when the request failed or did
      not answer ok, and otherwise the reply's `pool` key, which is
      `undefined` (`Replied(None)`) when the reply has none. */
  datatype PoolFetch = Failed | Replied(pool: Option<Pool>)

  /** The pool the page works with: `null` and `undefined` are both falsy,
      so every `pool && ...` test treats them alike. */
  function PoolOf(fetch: PoolFetch): (pool: Option<Pool>)
    ensures pool.Some? <==> fetch.Replied? && fetch.pool.Some?
  {
    if fetch.Replied? then fetch.pool else None
  }

  /** The API counts as responding when the health probe succeeded or the
      fetch did not return `null`: a reply without a `pool` key gives
      `undefined`, which `!== null` counts as responding. */
  function IsApiResponding(isHealthy: bool, fetch: PoolFetch): (r: bool)
    ensures r <==> isHealthy || fetch.Replied?
    ensures PoolIsWorking(PoolOf(fetch)) ==> r
  {
    isHealthy || fetch != Failed
  }

  /** With the health probe down, a reply without a `pool` key still shows
      the pool as starting, while a failed fetch shows it offline. */
  lemma ReplyWithoutPoolIsStarting()
    ensures var fetch := Replied(None);
      SystemStatus(PoolOf(fetch), IsApiResponding(false, fetch)).pool == Starting
    ensures SystemStatus(PoolOf(Failed), IsApiResponding(false, Failed)).pool == Offline
  {
  }

  datatype PoolLabel = Online | Starting | Offline
  datatype NodeLabel = Connected | Syncing | Disconnected

  /** The classes an indicator ends with: `online`, `offline`, or neither. */
  datatype Indicator = IndicatorOnline | IndicatorOffline | IndicatorNeither

  datatype Status = Status(pool: PoolLabel, node: NodeLabel, nodeIndicator: Indicator, api: Indicator)

  /** `updateSystemStatus`. */
  function SystemStatus(pool: Option<Pool>, isApiResponding: bool): (s: Status)
    ensures s.pool == Online <==> PoolIsWorking(pool)
    ensures s.pool == Starting <==> !PoolIsWorking(pool) && isApiResponding
    ensures s.pool == Offline <==> !PoolIsWorking(pool) && !isApiResponding
    ensures s.node == Connected <==> NodeIsConnected(pool)
    ensures s.node == Syncing <==> !NodeIsConnected(pool) && PoolIsWorking(pool)
    ensures s.node == Disconnected <==> !NodeIsConnected(pool) && !PoolIsWorking(pool)
    ensures s.api == IndicatorOnline <==> PoolIsWorking(pool)
    ensures s.api != IndicatorNeither
  {
    var working := PoolIsWorking(pool);
    var poolLabel := if working then Online else if isApiResponding then Starting else Offline;
    var node :=
      if NodeIsConnected(pool) then Connected
      else if working then Syncing
      else Disconnected;
    var nodeIndicator := match node
      case Connected => IndicatorOnline
      case Syncing => IndicatorNeither
      case Disconnected => IndicatorOffline;
    Status(poolLabel, node, nodeIndicator, if working then IndicatorOnline else IndicatorOffline)
  }

  /** The node indicator follows the node label, and the pool label agrees
      with the API indicator. */
  lemma StatusIndicators(pool: Option<Pool>, isApiResponding: bool)
    ensures var s := SystemStatus(pool, isApiResponding);
      && (s.nodeIndicator == IndicatorOnline <==> s.node == Connected)
      && (s.nodeIndicator == IndicatorNeither <==> s.node == Syncing)
      && (s.api == IndicatorOnline <==> s.pool == Online)
  {
  }

  /** A failed dashboard update shows everything offline. */
  lemma FailedUpdateStatus()
    ensures SystemStatus(None, false) == Status(Offline, Disconnected, IndicatorOffline, IndicatorOffline)
  {
  }

  // ---------------------------------------------------------------------
  // The disk usage bar

  /** The classes of an element. */
  class ClassList {
    var classes: set<string>

    constructor (classes: set<string>)
      ensures this.classes == classes
    {
      this.classes := classes;
    }
  }

  /** The class the disk bar gets for a usage. */
  function DiskBarClass(tenths: int): (c: set<string>)
    ensures "critical" in c <==> tenths >= 900
    ensures "warning" in c <==> 800 <= tenths < 900
    ensures c <= {"critical", "warning"} && |c| <= 1
  {
    if tenths >= 900 then {"critical"} else if tenths >= 800 then {"warning"} else {}
  }

  /** The usage the bar shows: an absent usage counts as 0. */
  function BarUsage(d: DiskReport): int {
    d.usagePercent.GetOr(0)
  }

  /** The bar part of `updateSystemResources`: without disk data the bar is
      untouched; otherwise it first loses both colour classes, then gets the
      one its usage calls for. */
  method UpdateDiskBar(bar: ClassList, disk: Option<DiskReport>)
    modifies bar
    ensures disk.None? ==> bar.classes == old(bar.classes)
    ensures disk.Some? ==> bar.classes == old(bar.classes) - {"warning", "critical"} + DiskBarClass(BarUsage(disk.value))
    ensures disk.Some? ==> !("warning" in bar.classes && "critical" in bar.classes)
  {
    if disk.Some? {
      var usage := disk.value.usagePercent.GetOr(0);
      bar.classes := bar.classes - {"warning", "critical"};
      if usage >= 900 {
        bar.classes := bar.classes + {"critical"};
      } else if usage >= 800 {
        bar.classes := bar.classes + {"warning"};
      }
    }
  }

  // ---------------------------------------------------------------------
  // The alert list

  datatype AlertType = Success | Info | Warning | Error

  /** The message of an entry; numbers are carried, their JavaScript
      rendering is not modelled. */
  datatype Note =
    | PoolNormal
    | WaitingForMiners
    | MinersConnected(count: int)
    | PoolHashrate(hashrate: int)
    | NodePeers(peers: int)
    | PoolDataUnavailable
    | CheckMiningcore
    | DiskCriticalNote(usage: int)
    | DiskWarningNote(usage: int)
    | HighCpuNote(cpu: int)
    | HighMemoryNote(usage: int)
  {
    predicate IsDisk() {
      DiskCriticalNote? || DiskWarningNote?
    }
  }

  datatype AdminAlert = AdminAlert(kind: AlertType, note: Note)

  /** The entries about the pool itself. */
  function PoolAlerts(pool: Option<Pool>): (r: seq<AdminAlert>)
    ensures !PoolIsWorking(pool) ==> r == [AdminAlert(Error, PoolDataUnavailable), AdminAlert(Info, CheckMiningcore)]
    ensures PoolIsWorking(pool) ==> |r| >= 1 && r[0] == AdminAlert(Success, PoolNormal)
    ensures forall i :: 0 <= i < |r| ==> !r[i].note.IsDisk() && !r[i].note.HighCpuNote? && !r[i].note.HighMemoryNote?
  {
    if PoolIsWorking(pool) then
      var peers := pool.value.networkStats.value.connectedPeers;
      [AdminAlert(Success, PoolNormal)] + MinerAlerts(pool.value.poolStats)
      + (if peers.Some? && peers.value != 0 then [AdminAlert(Success, NodePeers(peers.value))] else [])
    else
      [AdminAlert(Error, PoolDataUnavailable), AdminAlert(Info, CheckMiningcore)]
  }

  /** The entries about miners: waiting when there are neither miners nor
      hashrate, otherwise the miner count when positive, and the hashrate
      when positive. */
  function MinerAlerts(stats: Option<PoolStats>): (r: seq<AdminAlert>)
    ensures forall i :: 0 <= i < |r| ==> r[i].kind != Error && !r[i].note.IsDisk() && !r[i].note.HighCpuNote? && !r[i].note.HighMemoryNote?
    ensures AdminAlert(Info, WaitingForMiners) in r <==>
      stats.Some? && stats.value.connectedMiners.GetOr(0) == 0 && stats.value.poolHashrate.GetOr(0) == 0
  {
    if stats.None? then []
    else
      var count := stats.value.connectedMiners.GetOr(0);
      var hashrate := stats.value.poolHashrate.GetOr(0);
      (if count == 0 && hashrate == 0 then [AdminAlert(Info, WaitingForMiners)]
       else if count > 0 then [AdminAlert(Success, MinersConnected(count))]
       else [])
      + (if hashrate > 0 then [AdminAlert(Success, PoolHashrate(hashrate))] else [])
  }

  /** At most one disk entry: an error at 90% or more, a warning from 80%. */
  function DiskAlerts(disk: Option<DiskReport>): (r: seq<AdminAlert>)
    ensures |r| <= 1
    ensures forall i :: 0 <= i < |r| ==> r[i].note.IsDisk()
  {
    if disk.Some? && disk.value.usagePercent.Some? then
      var u := disk.value.usagePercent.value;
      if u >= 900 then [AdminAlert(Error, DiskCriticalNote(u))]
      else if u >= 800 then [AdminAlert(Warning, DiskWarningNote(u))]
      else []
    else []
  }

  function CpuAlerts(perf: Option<Performance>): (r: seq<AdminAlert>)
    ensures forall i :: 0 <= i < |r| ==> r[i].note.HighCpuNote?
  {
    if perf.Some? && perf.value.metrics.Some? && perf.value.metrics.value.cpuUsage.CpuValue?
       && perf.value.metrics.value.cpuUsage.tenths >= 900
    then [AdminAlert(Warning, HighCpuNote(perf.value.metrics.value.cpuUsage.tenths))]
    else []
  }

  /** The memory entry, read only when a memory object is present. */
  function MemoryAlerts(perf: Option<Performance>): (r: seq<AdminAlert>)
    ensures forall i :: 0 <= i < |r| ==> r[i].note.HighMemoryNote?
  {
    if perf.Some? && perf.value.metrics.Some? && perf.value.metrics.value.memory.MemoryValue?
       && perf.value.metrics.value.memory.usagePercent >= 900
    then [AdminAlert(Warning, HighMemoryNote(perf.value.metrics.value.memory.usagePercent))]
    else []
  }

  /** The list `updateEnhancedAlerts` shows, in order. */
  function AlertList(pool: Option<Pool>, disk: Option<DiskReport>, perf: Option<Performance>): (r: seq<AdminAlert>)
    ensures r != []
    ensures r[0] == AdminAlert(Success, PoolNormal) <==> PoolIsWorking(pool)
    ensures r[0] == AdminAlert(Error, PoolDataUnavailable) <==> !PoolIsWorking(pool)
  {
    PoolAlerts(pool) + DiskAlerts(disk) + CpuAlerts(perf) + MemoryAlerts(perf)
  }

  /** `updateEnhancedAlerts`: builds the list push by push. */
  method UpdateEnhancedAlerts(pool: Option<Pool>, disk: Option<DiskReport>, perf: Option<Performance>)
    returns (alerts: seq<AdminAlert>)
    ensures alerts == AlertList(pool, disk, perf)
  {
    alerts := [];
    if PoolIsWorking(pool) {
      alerts := alerts + [AdminAlert(Success, PoolNormal)];
      var p := pool.value;
      if p.poolStats.Some? {
        var minerCount := p.poolStats.value.connectedMiners.GetOr(0);
        var hashrate := p.poolStats.value.poolHashrate.GetOr(0);
        if minerCount == 0 && hashrate == 0 {
          alerts := alerts + [AdminAlert(Info, WaitingForMiners)];
        } else if minerCount > 0 {
          alerts := alerts + [AdminAlert(Success, MinersConnected(minerCount))];
        }
        if hashrate > 0 {
          alerts := alerts + [AdminAlert(Success, PoolHashrate(hashrate))];
        }
      }
      assert alerts == [AdminAlert(Success, PoolNormal)] + MinerAlerts(p.poolStats);
      var peers := p.networkStats.value.connectedPeers;
      if peers.Some? && peers.value != 0 {
        alerts := alerts + [AdminAlert(Success, NodePeers(peers.value))];
      }
    } else {
      alerts := alerts + [AdminAlert(Error, PoolDataUnavailable)];
      alerts := alerts + [AdminAlert(Info, CheckMiningcore)];
    }
    assert alerts == PoolAlerts(pool);
    ghost var prefix := alerts;

    if disk.Some? && disk.value.usagePercent.Some? {
      var u := disk.value.usagePercent.value;
      if u >= 900 {
        alerts := alerts + [AdminAlert(Error, DiskCriticalNote(u))];
      } else if u >= 800 {
        alerts := alerts + [AdminAlert(Warning, DiskWarningNote(u))];
      }
    }
    assert alerts == prefix + DiskAlerts(disk);
    prefix := alerts;

    if perf.Some? && perf.value.metrics.Some? && !perf.value.metrics.value.cpuUsage.CpuNA? {
      var cpu := perf.value.metrics.value.cpuUsage;
      if cpu.CpuValue? && cpu.tenths >= 900 {
        alerts := alerts + [AdminAlert(Warning, HighCpuNote(cpu.tenths))];
      }
    }
    assert alerts == prefix + CpuAlerts(perf);
    prefix := alerts;

    if perf.Some? && perf.value.metrics.Some? && perf.value.metrics.value.memory.MemoryValue? {
      var usage := perf.value.metrics.value.memory.usagePercent;
      if usage >= 900 {
        alerts := alerts + [AdminAlert(Warning, HighMemoryNote(usage))];
      }
    }
  }

  /** Without a working pool the list opens with the error and the hint to
      check that the pool software runs. */
  lemma {:induction false} NotWorkingOpening(pool: Option<Pool>, disk: Option<DiskReport>, perf: Option<Performance>)
    requires !PoolIsWorking(pool)
    ensures var a := AlertList(pool, disk, perf);
      |a| >= 2 && a[..2] == [AdminAlert(Error, PoolDataUnavailable), AdminAlert(Info, CheckMiningcore)]
      && AdminAlert(Success, PoolNormal) !in a
  {
    var a := AlertList(pool, disk, perf);
    var rest := DiskAlerts(disk) + CpuAlerts(perf) + MemoryAlerts(perf);
    assert a == PoolAlerts(pool) + rest;
    assert a[..2] == PoolAlerts(pool);
  }

  /** With a working pool the list opens with "running normally", and
      "waiting for miners" appears exactly when the reply has pool stats
      with no miners and no hashrate. */
  lemma {:induction false} WorkingOpening(pool: Option<Pool>, disk: Option<DiskReport>, perf: Option<Performance>)
    requires PoolIsWorking(pool)
    ensures var a := AlertList(pool, disk, perf);
      a[0] == AdminAlert(Success, PoolNormal)
    ensures var a := AlertList(pool, disk, perf);
      AdminAlert(Info, WaitingForMiners) in a <==>
        && pool.value.poolStats.Some?
        && pool.value.poolStats.value.connectedMiners.GetOr(0) == 0
        && pool.value.poolStats.value.poolHashrate.GetOr(0) == 0
  {
    var a := AlertList(pool, disk, perf);
    var rest := DiskAlerts(disk) + CpuAlerts(perf) + MemoryAlerts(perf);
    var peers := PoolAlerts(pool)[1 + |MinerAlerts(pool.value.poolStats)|..];
    assert a == [AdminAlert(Success, PoolNormal)] + MinerAlerts(pool.value.poolStats) + (peers + rest);
    assert AdminAlert(Info, WaitingForMiners) !in peers + rest;
  }

  /** The list holds at most one disk entry: the error at 90% or more, the
      warning from 80% up to 90%, never both. */
  lemma {:induction false} DiskEntries(pool: Option<Pool>, disk: Option<DiskReport>, perf: Option<Performance>)
    ensures var a := AlertList(pool, disk, perf);
      forall i, j :: 0 <= i < |a| && 0 <= j < |a| && a[i].note.IsDisk() && a[j].note.IsDisk() ==> i == j
    ensures forall u :: (AdminAlert(Error, DiskCriticalNote(u)) in AlertList(pool, disk, perf)
      <==> disk.Some? && disk.value.usagePercent == Some(u) && u >= 900)
    ensures forall u :: (AdminAlert(Warning, DiskWarningNote(u)) in AlertList(pool, disk, perf)
      <==> disk.Some? && disk.value.usagePercent == Some(u) && 800 <= u < 900)
  {
    var p, d, c, m := PoolAlerts(pool), DiskAlerts(disk), CpuAlerts(perf), MemoryAlerts(perf);
    var a := AlertList(pool, disk, perf);
    assert a == p + d + (c + m);
    forall u
      ensures AdminAlert(Error, DiskCriticalNote(u)) in a <==> AdminAlert(Error, DiskCriticalNote(u)) in d
      ensures AdminAlert(Warning, DiskWarningNote(u)) in a <==> AdminAlert(Warning, DiskWarningNote(u)) in d
    {
      NoteOutside(p, c + m, AdminAlert(Error, DiskCriticalNote(u)));
      NoteOutside(p, c + m, AdminAlert(Warning, DiskWarningNote(u)));
    }
  }

  /** A disk entry is in neither the pool part nor the CPU and memory part. */
  lemma NoteOutside(p: seq<AdminAlert>, cm: seq<AdminAlert>, x: AdminAlert)
    requires x.note.IsDisk()
    requires forall i :: 0 <= i < |p| ==> !p[i].note.IsDisk()
    requires forall i :: 0 <= i < |cm| ==> !cm[i].note.IsDisk()
    ensures x !in p && x !in cm
  {
  }

  /** The CPU and the memory warnings are decided independently, each by its
      own reading reaching 90%. */
  lemma {:induction false} UsageWarnings(pool: Option<Pool>, disk: Option<DiskReport>, perf: Option<Performance>)
    ensures forall t :: (AdminAlert(Warning, HighCpuNote(t)) in AlertList(pool, disk, perf)
      <==> perf.Some? && perf.value.metrics.Some? && perf.value.metrics.value.cpuUsage == CpuValue(t) && t >= 900)
    ensures forall t :: (AdminAlert(Warning, HighMemoryNote(t)) in AlertList(pool, disk, perf)
      <==> perf.Some? && perf.value.metrics.Some? && perf.value.metrics.value.memory == MemoryValue(t) && t >= 900)
  {
    var p, d, c, m := PoolAlerts(pool), DiskAlerts(disk), CpuAlerts(perf), MemoryAlerts(perf);
    assert AlertList(pool, disk, perf) == p + d + c + m;
  }

  /** The bar and the list agree: the bar is critical exactly when the list
      has a disk error, and warning exactly when it has a disk warning. */
  lemma BarAgreesWithList(pool: Option<Pool>, disk: DiskReport, perf: Option<Performance>)
    requires disk.usagePercent.Some?
    ensures var u := disk.usagePercent.value;
      && ("critical" in DiskBarClass(BarUsage(disk)) <==> AdminAlert(Error, DiskCriticalNote(u)) in AlertList(pool, Some(disk), perf))
      && ("warning" in DiskBarClass(BarUsage(disk)) <==> AdminAlert(Warning, DiskWarningNote(u)) in AlertList(pool, Some(disk), perf))
  {
    DiskEntries(pool, Some(disk), perf);
  }

  // ---------------------------------------------------------------------
  // The memory check as written

  /** How `updateEnhancedAlerts` ends: with its list, or with the
      `TypeError` thrown by reading `usagePercent` of an absent memory
      object. */
  datatype Rendering = Rendered(alerts: seq<AdminAlert>) | TypeError

  /** The memory check as written tests only `memory !== 'N/A'`, so an
      absent memory key reaches `memory.usagePercent`. */
  function MemoryAlertsAsWritten(perf: Option<Performance>): (r: Rendering)
    ensures r.TypeError? <==> perf.Some? && perf.value.metrics.Some? && perf.value.metrics.value.memory.MemoryMissing?
  {
    if perf.Some? && perf.value.metrics.Some? && !perf.value.metrics.value.memory.MemoryNA? then
      match perf.value.metrics.value.memory
      case MemoryMissing => TypeError
      case MemoryValue(usage) =>
        Rendered(if usage >= 900 then [AdminAlert(Warning, HighMemoryNote(usage))] else [])
      case MemoryNA => Rendered([])
    else Rendered([])
  }

  function AlertListAsWritten(pool: Option<Pool>, disk: Option<DiskReport>, perf: Option<Performance>): (r: Rendering)
    ensures r.TypeError? <==> perf.Some? && perf.value.metrics.Some? && perf.value.metrics.value.memory.MemoryMissing?
    ensures r.Rendered? ==> r.alerts == AlertList(pool, disk, perf)
  {
    assert MemoryAlertsAsWritten(perf).Rendered? ==> MemoryAlertsAsWritten(perf) == Rendered(MemoryAlerts(perf));
    match MemoryAlertsAsWritten(perf)
    case TypeError => TypeError
    case Rendered(m) => Rendered(PoolAlerts(pool) + DiskAlerts(disk) + CpuAlerts(perf) + m)
  }

  /** The server leaves `memory` out of its metrics when `free -m` exits
      with an error; the list is then never shown, whatever the pool, disk
      and CPU readings, while with any memory field present the list is the
      corrected one. */
  lemma {:induction false} MissingMemoryThrows(pool: Option<Pool>, disk: Option<DiskReport>, cpu: CpuField)
    ensures AlertListAsWritten(pool, disk, Some(Performance(Some(Metrics(cpu, MemoryMissing))))) == TypeError
    ensures AlertList(pool, disk, Some(Performance(Some(Metrics(cpu, MemoryMissing)))))
      == PoolAlerts(pool) + DiskAlerts(disk) + CpuAlerts(Some(Performance(Some(Metrics(cpu, MemoryMissing)))))
  {
    var perf := Some(Performance(Some(Metrics(cpu, MemoryMissing))));
    assert MemoryAlerts(perf) == [];
  }
}
