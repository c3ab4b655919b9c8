/** The pool monitor process: it owns one Telegram bot and one Discord
    webhook, keeps the alert flags, runs the four checks once per iteration
    and announces its start and stop.

    Every HTTP request is replaced by what it came back with, given as input:
    the readings of the checks and, for each message sent, a `Net` value with
    the clock reading and the channels' answers. The console output and the
    sleeps are left out. */
module Monitor {
  import opened Wrappers
  import opened Text
  import opened Config
  import opened AlertRules
  import Telegram
  import Discord

  /** Seconds between two iterations of the loop. */
  const CheckInterval := 60

  datatype Channel = TelegramChannel | DiscordChannel

  /** A message that left the process through `channel`: the Telegram
      fan-out to every chat, or one Discord embed. `kind` is the alert kind,
      or `None` for the start and stop announcements, which bypass the
      allow-lists. What is posted is stated by the channels' own methods. */
  datatype Delivery = Delivery(channel: Channel, kind: Option<string>)

  /** What the outside world answers while one message is sent: the clock
      reading it is stamped with, the outcome of the post to each Telegram
      chat, and the outcome of the webhook post. */
  datatype Net = Net(time: string, telegram: seq<PostOutcome>, discord: PostOutcome)

  /** The answers for one iteration of the loop: one `Net` per alert the
      iteration may send. */
  datatype TickNet = TickNet(pool: Net, disk: Net, cpu: Net, memory: Net, node: Net)

  /** The readings of one iteration of the loop. */
  datatype TickInput = TickInput(pool: PoolReply, disk: DiskReply, perf: PerfReply, node: NodeReply, net: TickNet)

  function Readings(t: TickInput): seq<Reading> {
    TickReadings(t.pool, t.disk, t.perf, t.node)
  }

  /** Four appends in a row append the four-element sequence. */
  lemma SnocFour<T>(h: seq<T>, a: T, b: T, c: T, d: T)
    ensures h + [a] + [b] + [c] + [d] == h + [a, b, c, d]
  {
  }

  lemma Associative<T>(a: seq<T>, b: seq<T>, c: seq<T>)
    ensures a + b + c == a + (b + c)
  {
  }

  lemma AppendFour<T>(h: seq<T>, a: seq<T>, b: seq<T>, c: seq<T>, d: seq<T>)
    ensures h + a + b + c + d == h + (a + b + c + d)
  {
  }

  /** The readings of a sequence of iterations, in order. */
  function AllReadings(ts: seq<TickInput>): (rs: seq<Reading>)
    ensures |rs| == 4 * |ts|
  {
    if ts == [] then [] else AllReadings(ts[..|ts| - 1]) + Readings(ts[|ts| - 1])
  }

  /** Iteration `i` contributes the readings at positions `4 * i` to
      `4 * i + 3`, in the order pool, disk, performance, node. */
  lemma {:induction false} AllReadingsBlocks(ts: seq<TickInput>)
    ensures forall i :: 0 <= i < |ts| ==> AllReadings(ts)[4 * i..4 * i + 4] == Readings(ts[i])
    decreases |ts|
  {
    if ts != [] {
      var init := ts[..|ts| - 1];
      AllReadingsBlocks(init);
      assert forall i :: 0 <= i < |init| ==> init[i] == ts[i];
    }
  }

  lemma AllReadingsSnoc(ts: seq<TickInput>, i: nat)
    requires i < |ts|
    ensures AllReadings(ts[..i + 1]) == AllReadings(ts[..i]) + Readings(ts[i])
  {
    assert ts[..i + 1][..i] == ts[..i];
  }

  const StartupText := "\U{1F50D} *Alert Monitor Started*\n\nMonitoring pool status every " + NatToString(CheckInterval) + " seconds..."
  const StartupTitle := "\U{1F50D} Alert Monitor Started"
  const StartupDescription := "Monitoring pool status every " + NatToString(CheckInterval) + " seconds..."
  const ShutdownText := "\U{23F9}\U{FE0F} *Alert Monitor Stopped*"
  const ShutdownTitle := "\U{23F9}\U{FE0F} Alert Monitor Stopped"
  const ShutdownDescription := "Monitoring has been stopped"

  class AlertMonitor {
    const telegram: Telegram.TelegramBot
    const discord: Discord.DiscordWebhook

    /** `last_alerts`. */
    var lastAlerts: Flags

    /** Every alert handed to `send_alert`, in order. */
    ghost var log: seq<Alert>
    /** Every reading the checks have judged, in order. */
    ghost var history: seq<Reading>
    /** Every message that left the process, in order. */
    ghost var outbox: seq<Delivery>

    /** A Telegram delivery goes only to a bot that is enabled, has a token
        and chats, and, for an alert, allow-lists its kind; likewise for
        Discord. */
    predicate Routed(d: Delivery) {
      match d.channel
      case TelegramChannel => telegram.Ready() && (d.kind.Some? ==> telegram.Accepts(d.kind.value))
      case DiscordChannel => discord.Ready() && (d.kind.Some? ==> discord.Accepts(d.kind.value))
    }

    /** `net` answers one post per configured chat. */
    predicate Answers(net: Net) {
      |net.telegram| == |telegram.chatIds|
    }

    predicate AnswersTick(n: TickNet) {
      Answers(n.pool) && Answers(n.disk) && Answers(n.cpu) && Answers(n.memory) && Answers(n.node)
    }

    /** The flags and the alert log are what the de-duplication rules give
        for the readings seen so far, starting from no flag set; and every
        message went to a channel that was allowed to take it. */
    ghost predicate Valid()
      reads this
    {
      && lastAlerts == Run(Initial, history).flags
      && log == Run(Initial, history).sent
      && OutboxRouted()
    }

    ghost predicate OutboxRouted()
      reads this
    {
      forall i :: 0 <= i < |outbox| ==> Routed(outbox[i])
    }

    /** Builds both channels from the same configuration file (`None` when
        it does not exist); no flag is set. */
    constructor (file: Option<IntegrationsFile>)
      ensures Valid()
      ensures lastAlerts == Initial && log == [] && history == [] && outbox == []
      ensures telegram.enabled == TelegramOf(file).enabled.GetOr(false)
      ensures discord.enabled == DiscordOf(file).enabled.GetOr(false)
    {
      telegram := new Telegram.TelegramBot(file);
      discord := new Discord.DiscordWebhook(file);
      lastAlerts := Initial;
      log := [];
      history := [];
      outbox := [];
    }

    /** The messages one alert of `kind` produces: the Telegram fan-out and
        the Discord embed, each only where the channel is ready and
        allow-lists the kind. */
    function AlertDeliveries(kind: string): (ds: seq<Delivery>)
      ensures forall i :: 0 <= i < |ds| ==> Routed(ds[i]) && ds[i].kind == Some(kind)
      ensures |ds| <= 2
    {
      (if telegram.Ready() && telegram.Accepts(kind) then [Delivery(TelegramChannel, Some(kind))] else [])
      + (if discord.Ready() && discord.Accepts(kind) then [Delivery(DiscordChannel, Some(kind))] else [])
    }

    /** The messages the alerts of `sent` produce, alert by alert. */
    function Routes(sent: seq<Alert>): (ds: seq<Delivery>)
      ensures |ds| <= 2 * |sent|
    {
      if sent == [] then [] else AlertDeliveries(sent[0].Kind()) + Routes(sent[1..])
    }

    /** The messages of alerts sent one after the other are sent one after
        the other. */
    lemma {:induction false} RoutesAppend(a: seq<Alert>, b: seq<Alert>)
      ensures Routes(a + b) == Routes(a) + Routes(b)
      decreases |a|
    {
      if a == [] {
        assert a + b == b;
      } else {
        assert (a + b)[0] == a[0] && (a + b)[1..] == a[1..] + b;
        RoutesAppend(a[1..], b);
      }
    }

    /** A run split in two sends the messages of the first part, then those
        of the second, which starts from the flags the first part left. */
    lemma RunAppendRoutes(f: Flags, a: seq<Reading>, b: seq<Reading>, o: seq<Delivery>)
      ensures var s := Run(f, a); var t := Run(s.flags, b); var u := Run(f, a + b);
        && u.flags == t.flags
        && o + Routes(s.sent) + Routes(t.sent) == o + Routes(u.sent)
    {
      var s := Run(f, a);
      var t := Run(s.flags, b);
      RunAppend(f, a, b);
      RoutesAppend(s.sent, t.sent);
      Associative(o, Routes(s.sent), Routes(t.sent));
    }

    /** An alert of `kind` reached every chat or the webhook. */
    predicate Delivered(kind: string, net: Net) {
      || (telegram.Ready() && telegram.Accepts(kind) && telegram.AllDelivered(net.telegram))
      || (discord.Ready() && discord.Accepts(kind) && net.discord == Responded(204))
    }

    /** `send_alert`: hands the alert to every enabled channel; true when any
        of them reports success. */
    method SendAlert(kind: string, message: string, net: Net) returns (any: bool)
      requires |net.telegram| == |telegram.chatIds|
      requires OutboxRouted()
      modifies this
      ensures any <==> Delivered(kind, net)
      ensures outbox == old(outbox) + AlertDeliveries(kind)
      ensures OutboxRouted()
      ensures lastAlerts == old(lastAlerts) && log == old(log) && history == old(history)
    {
      any := false;
      if telegram.enabled {
        var ok, posts := telegram.SendAlert(kind, message, net.time, net.telegram);
        if posts != [] {
          outbox := outbox + [Delivery(TelegramChannel, Some(kind))];
        }
        any := any || ok;
      }
      if discord.enabled {
        var ok, posted := discord.SendAlert(kind, message, net.time, net.discord);
        if posted.Some? {
          outbox := outbox + [Delivery(DiscordChannel, Some(kind))];
        }
        any := any || ok;
      }
    }

    /** Sends `a` and records it in the log. */
    method Notify(a: Alert, net: Net)
      requires |net.telegram| == |telegram.chatIds|
      requires OutboxRouted()
      modifies this
      ensures outbox == old(outbox) + Routes([a])
      ensures OutboxRouted()
      ensures log == old(log) + [a]
      ensures lastAlerts == old(lastAlerts) && history == old(history)
    {
      var _ := SendAlert(a.Kind(), a.Message(), net);
      assert Routes([a]) == AlertDeliveries(a.Kind()) + Routes([]);
      log := log + [a];
    }

    /** Raises `c`: sends `a` unless `c` is already set, then sets `c`. */
    method Fire(c: Condition, a: Alert, net: Net)
      requires Answers(net) && OutboxRouted()
      modifies this
      ensures var s := Raise(old(lastAlerts), c, a);
        && lastAlerts == s.flags && log == old(log) + s.sent
        && outbox == old(outbox) + Routes(s.sent)
      ensures OutboxRouted() && history == old(history)
    {
      if !Flag(lastAlerts, c) {
        Notify(a, net);
        lastAlerts := lastAlerts[c := true];
      }
    }

    /** `check_pool_status`. */
    method CheckPoolStatus(reply: PoolReply, net: Net)
      requires Valid() && |net.telegram| == |telegram.chatIds|
      modifies this
      ensures Valid()
      ensures var s := CheckPool(old(lastAlerts), reply);
        && lastAlerts == s.flags && log == old(log) + s.sent
        && outbox == old(outbox) + Routes(s.sent)
      ensures history == old(history) + [Pool(reply)]
    {
      match reply {
        case PoolStatus(code) =>
          if code != 200 {
            Fire(PoolOffline, PoolStatusAlert(code), net);
          } else {
            if Flag(lastAlerts, PoolOffline) {
              Notify(PoolRecoveredAlert, net);
            }
            lastAlerts := lastAlerts[PoolOffline := false];
          }
        case PoolRequestError(reason) =>
          Fire(PoolOffline, PoolUnreachableAlert(reason), net);
      }
      RunSnoc(Initial, history, Pool(reply));
      history := history + [Pool(reply)];
    }
  
    /** `check_disk_space`. */
    method CheckDiskSpace(reply: DiskReply, net: Net)
      requires Valid() && Answers(net)
      modifies this
      ensures Valid()
      ensures var s := CheckDisk(old(lastAlerts), reply);
        && lastAlerts == s.flags && log == old(log) + s.sent
        && outbox == old(outbox) + Routes(s.sent)
      ensures history == old(history) + [Disk(reply)]
    {
      ghost var f := lastAlerts;
      match reply {
        case DiskFailed =>
        case DiskData(u, free, used, total) =>
          var usage := u.GetOr(0);
          if usage >= CriticalDisk {
            var a := DiskCriticalAlert(usage, free.GetOr("N/A"), used.GetOr("N/A"), total.GetOr("N/A"));
            assert CheckDisk(f, reply) == Raise(f, DiskCritical, a);
            Fire(DiskCritical, a, net);
          } else if usage >= WarningDisk {
            var a := DiskWarningAlert(usage, free.GetOr("N/A"));
            assert CheckDisk(f, reply) == Step(Clear(Raise(f, DiskWarning, a).flags, DiskCritical), Raise(f, DiskWarning, a).sent);
            Fire(DiskWarning, a, net);
            lastAlerts := lastAlerts[DiskCritical := false];
          } else {
            assert CheckDisk(f, reply) == Step(Clear(Clear(f, DiskCritical), DiskWarning), []);
            lastAlerts := lastAlerts[DiskCritical := false];
            lastAlerts := lastAlerts[DiskWarning := false];
          }
      }
      RunSnoc(Initial, history, Disk(reply));
      history := history + [Disk(reply)];
    }

    /** `check_system_performance`; the CPU alert is answered by `cpuNet`
        and the memory alert by `memNet`. */
    method CheckSystemPerformance(reply: PerfReply, cpuNet: Net, memNet: Net)
      requires Valid() && Answers(cpuNet) && Answers(memNet)
      modifies this
      ensures Valid()
      ensures var s := CheckPerformance(old(lastAlerts), reply);
        && lastAlerts == s.flags && log == old(log) + s.sent
        && outbox == old(outbox) + Routes(s.sent)
      ensures history == old(history) + [Perf(reply)]
    {
      RunSnoc(Initial, history, Perf(reply));
      CheckUsage(reply, cpuNet, memNet);
      history := history + [Perf(reply)];
    }

    /** Both halves of `check_system_performance`, without the history. */
    method CheckUsage(reply: PerfReply, cpuNet: Net, memNet: Net)
      requires Answers(cpuNet) && Answers(memNet) && OutboxRouted()
      modifies this
      ensures var s := CheckPerformance(old(lastAlerts), reply);
        && lastAlerts == s.flags && log == old(log) + s.sent
        && outbox == old(outbox) + Routes(s.sent)
      ensures OutboxRouted() && history == old(history)
    {
      match reply {
        case PerfFailed =>
        case PerfData(cpu, memory) =>
          ghost var f, l0, o0 := lastAlerts, log, outbox;
          ghost var c := CheckCpu(f, cpu);
          ghost var m := CheckMemory(c.flags, memory);
          CheckCpuUsage(cpu, cpuNet);
          CheckMemoryUsage(memory, memNet);
          RoutesAppend(c.sent, m.sent);
          Associative(l0, c.sent, m.sent);
          Associative(o0, Routes(c.sent), Routes(m.sent));
      }
    }

    /** The CPU half of `check_system_performance`. */
    method CheckCpuUsage(cpu: CpuReading, net: Net)
      requires Answers(net) && OutboxRouted()
      modifies this
      ensures var s := CheckCpu(old(lastAlerts), cpu);
        && lastAlerts == s.flags && log == old(log) + s.sent
        && outbox == old(outbox) + Routes(s.sent)
      ensures OutboxRouted() && history == old(history)
    {
      if cpu.CpuPercent? && cpu.tenths >= HighCpuLevel {
        Fire(HighCpu, HighCpuAlert(cpu.tenths), net);
      } else {
        lastAlerts := lastAlerts[HighCpu := false];
      }
    }

    /** The memory half of `check_system_performance`. */
    method CheckMemoryUsage(mem: MemReading, net: Net)
      requires Answers(net) && OutboxRouted()
      modifies this
      ensures var s := CheckMemory(old(lastAlerts), mem);
        && lastAlerts == s.flags && log == old(log) + s.sent
        && outbox == old(outbox) + Routes(s.sent)
      ensures OutboxRouted() && history == old(history)
    {
      if MemoryPresent(mem) {
        var usage := mem.usagePercent.GetOr(0);
        if usage >= HighMemLevel {
          Fire(HighMem, HighMemAlert(usage, mem.used.GetOr("N/A"), mem.total.GetOr("N/A")), net);
        } else {
          lastAlerts := lastAlerts[HighMem := false];
        }
      }
    }

    /** `check_node_connection`. */
    method CheckNodeConnection(reply: NodeReply, net: Net)
      requires Valid() && Answers(net)
      modifies this
      ensures Valid()
      ensures var s := CheckNode(old(lastAlerts), reply);
        && lastAlerts == s.flags && log == old(log) + s.sent
        && outbox == old(outbox) + Routes(s.sent)
      ensures history == old(history) + [Node(reply)]
    {
      match reply {
        case NodeFailed =>
        case NodeStatus(code, pools) =>
          if code == 200 && pools != [] {
            var peers := pools[0].GetOr(0);
            if peers == 0 {
              Fire(NodeDisconnected, NoPeersAlert, net);
            } else {
              lastAlerts := lastAlerts[NodeDisconnected := false];
            }
          }
      }
      RunSnoc(Initial, history, Node(reply));
      history := history + [Node(reply)];
    }

    /** One iteration of the loop: pool, disk, performance, node. */
    method Tick(t: TickInput)
      requires Valid() && AnswersTick(t.net)
      modifies this
      ensures Valid()
      ensures history == old(history) + Readings(t)
      ensures var s := Run(old(lastAlerts), Readings(t));
        && lastAlerts == s.flags && log == old(log) + s.sent
        && outbox == old(outbox) + Routes(s.sent)
    {
      ghost var l0, o0 := log, outbox;
      ghost var s1 := Check(lastAlerts, Pool(t.pool));
      CheckPoolStatus(t.pool, t.net.pool);
      ghost var s2 := Check(lastAlerts, Disk(t.disk));
      CheckDiskSpace(t.disk, t.net.disk);
      ghost var s3 := Check(lastAlerts, Perf(t.perf));
      CheckSystemPerformance(t.perf, t.net.cpu, t.net.memory);
      ghost var s4 := Check(lastAlerts, Node(t.node));
      CheckNodeConnection(t.node, t.net.node);
      SnocFour(old(history), Pool(t.pool), Disk(t.disk), Perf(t.perf), Node(t.node));
      FourChecks(old(lastAlerts), Pool(t.pool), Disk(t.disk), Perf(t.perf), Node(t.node), l0, o0, log, outbox);
    }

    /** The four checks of a tick, one after the other, log and post what a
        run over the tick's four readings sends. */
    lemma FourChecks(f: Flags, a: Reading, b: Reading, c: Reading, d: Reading,
                     l0: seq<Alert>, o0: seq<Delivery>, l: seq<Alert>, o: seq<Delivery>)
      requires var s1 := Check(f, a);
        var s2 := Check(s1.flags, b);
        var s3 := Check(s2.flags, c);
        var s4 := Check(s3.flags, d);
        && l == l0 + s1.sent + s2.sent + s3.sent + s4.sent
        && o == o0 + Routes(s1.sent) + Routes(s2.sent) + Routes(s3.sent) + Routes(s4.sent)
      ensures var s := Run(f, [a, b, c, d]);
        && s.flags == Check(Check(Check(Check(f, a).flags, b).flags, c).flags, d).flags
        && l == l0 + s.sent && o == o0 + Routes(s.sent)
    {
      var s1 := Check(f, a);
      var s2 := Check(s1.flags, b);
      var s3 := Check(s2.flags, c);
      var s4 := Check(s3.flags, d);
      RunOfFourSteps(f, a, b, c, d);
      AppendFour(l0, s1.sent, s2.sent, s3.sent, s4.sent);
      RoutesAppend(s1.sent + s2.sent + s3.sent, s4.sent);
      RoutesAppend(s1.sent + s2.sent, s3.sent);
      RoutesAppend(s1.sent, s2.sent);
      AppendFour(o0, Routes(s1.sent), Routes(s2.sent), Routes(s3.sent), Routes(s4.sent));
    }

    /** The messages of a start or stop announcement: every ready channel
        gets it, whatever its allow-list says. */
    function Announcements(): (ds: seq<Delivery>)
      ensures forall i :: 0 <= i < |ds| ==> Routed(ds[i]) && ds[i].kind == None
      ensures |ds| == (if telegram.Ready() then 1 else 0) + (if discord.Ready() then 1 else 0)
    {
      (if telegram.Ready() then [Delivery(TelegramChannel, None)] else [])
      + (if discord.Ready() then [Delivery(DiscordChannel, None)] else [])
    }

    /** Posts an announcement to every enabled channel. */
    method Announce(text: string, title: string, description: string, colour: int, net: Net)
      requires Valid() && Answers(net)
      modifies this
      ensures Valid()
      ensures outbox == old(outbox) + Announcements()
      ensures lastAlerts == old(lastAlerts) && log == old(log) && history == old(history)
    {
      if telegram.enabled {
        var _, posts := telegram.SendMessage(text, None, net.telegram);
        if posts != [] {
          outbox := outbox + [Delivery(TelegramChannel, None)];
        }
      }
      if discord.enabled {
        var _, posted := discord.SendEmbed(title, description, colour, None, net.time, net.discord);
        if posted.Some? {
          outbox := outbox + [Delivery(DiscordChannel, None)];
        }
      }
    }

    /** `run`: the start announcement, the iterations in `ticks`, then the
        stop announcement sent when the loop is interrupted. The alerts are
        exactly those the de-duplication rules give for all the readings. */
    method RunMonitor(ticks: seq<TickInput>, startNet: Net, stopNet: Net)
      requires Valid() && Answers(startNet) && Answers(stopNet)
      requires forall i :: 0 <= i < |ticks| ==> AnswersTick(ticks[i].net)
      modifies this
      ensures Valid()
      ensures history == old(history) + AllReadings(ticks)
      ensures var s := Run(old(lastAlerts), AllReadings(ticks));
        && lastAlerts == s.flags && log == old(log) + s.sent
        && outbox == old(outbox) + Announcements() + Routes(s.sent) + Announcements()
    {
      Announce(StartupText, StartupTitle, StartupDescription, Discord.Teal, startNet);
      Loop(ticks);
      Announce(ShutdownText, ShutdownTitle, ShutdownDescription, Discord.LightRed, stopNet);
    }

    /** The `while` loop of `run`, one tick per element of `ticks`. */
    method Loop(ticks: seq<TickInput>)
      requires Valid()
      requires forall i :: 0 <= i < |ticks| ==> AnswersTick(ticks[i].net)
      modifies this
      ensures Valid()
      ensures history == old(history) + AllReadings(ticks)
      ensures var s := Run(old(lastAlerts), AllReadings(ticks));
        && lastAlerts == s.flags && log == old(log) + s.sent
        && outbox == old(outbox) + Routes(s.sent)
    {
      ghost var h0, f0, o0 := history, lastAlerts, outbox;
      assert Run(f0, AllReadings(ticks[..0])) == Step(f0, []);
      assert o0 + Routes([]) == o0;
      var i := 0;
      while i < |ticks|
        invariant 0 <= i <= |ticks|
        invariant Valid()
        invariant history == h0 + AllReadings(ticks[..i])
        invariant lastAlerts == Run(f0, AllReadings(ticks[..i])).flags
        invariant outbox == o0 + Routes(Run(f0, AllReadings(ticks[..i])).sent)
      {
        Tick(ticks[i]);
        AllReadingsSnoc(ticks, i);
        Associative(h0, AllReadings(ticks[..i]), Readings(ticks[i]));
        RunAppendRoutes(f0, AllReadings(ticks[..i]), Readings(ticks[i]), o0);
        i := i + 1;
      }
      assert ticks[..i] == ticks;
      RunAppend(Initial, h0, AllReadings(ticks));
    }
  }
}
