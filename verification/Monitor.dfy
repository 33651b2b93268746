/** The check cycle of the health monitor. */
module Monitor {
  import opened Common

  const CPU_THRESHOLD := 90
  const CPU_ALERT_MINUTES := 5
  const RAM_ALERT_CHECKS := 5
  const ZOMBIE_THRESHOLD := 10
  const MAX_ALERTS := 100

  datatype Reading = Reading(cpu: int, ram: int, zombies: nat)

  datatype Alert = CpuHigh(percent: int, minutes: nat) | MemoryLeak(ram: int) | ZombieCount(count: nat)

  // ---------- what the counters should be ----------

  /** Length of the final run of readings above the threshold. */
  function CpuRun(h: seq<Reading>): nat {
    if h == [] || h[|h| - 1].cpu <= CPU_THRESHOLD then 0 else CpuRun(h[..|h| - 1]) + 1
  }

  /** Number of strict increases at the end. */
  function RamRun(h: seq<Reading>): nat {
    if |h| < 2 || h[|h| - 1].ram <= h[|h| - 2].ram then 0 else RamRun(h[..|h| - 1]) + 1
  }

  function CpuAlerts(h: seq<Reading>): seq<Alert>
    requires h != []
  {
    if CpuRun(h) >= CPU_ALERT_MINUTES then [CpuHigh(h[|h| - 1].cpu, CpuRun(h))] else []
  }

  function RamAlerts(h: seq<Reading>): seq<Alert>
    requires h != []
  {
    if RamRun(h) >= RAM_ALERT_CHECKS then [MemoryLeak(h[|h| - 1].ram)] else []
  }

  function ZombieAlerts(h: seq<Reading>): seq<Alert>
    requires h != []
  {
    if h[|h| - 1].zombies > ZOMBIE_THRESHOLD then [ZombieCount(h[|h| - 1].zombies)] else []
  }

  /** The alerts of the check that took the last reading. */
  function AlertsAt(h: seq<Reading>): seq<Alert>
    requires h != []
  {
    CpuAlerts(h) + RamAlerts(h) + ZombieAlerts(h)
  }

  /** Every alert ever raised, oldest first. */
  function Emitted(h: seq<Reading>): seq<Alert> {
    if h == [] then [] else Emitted(h[..|h| - 1]) + AlertsAt(h)
  }

  lemma EmittedSnoc(h: seq<Reading>, r: Reading)
    ensures var h' := h + [r];
      && Emitted(h') == Emitted(h) + CpuAlerts(h') + RamAlerts(h') + ZombieAlerts(h')
      && (r.zombies <= ZOMBIE_THRESHOLD ==> Emitted(h') == Emitted(h) + CpuAlerts(h') + RamAlerts(h'))
  {
    assert (h + [r])[..|h|] == h;
  }

  function LastAlerts(es: seq<Alert>): seq<Alert> {
    if |es| <= MAX_ALERTS then es else es[|es| - MAX_ALERTS..]
  }

  // ---------- the code ----------

  class HealthMonitor {
    var cpuAlertCount: nat
    var ramAlertCount: nat
    var ramIncreasing: bool
    var lastRam: Option<int>
    var alerts: seq<Alert>
    ghost var history: seq<Reading>

    ghost predicate Valid()
      reads this
    {
      && cpuAlertCount == CpuRun(history)
      && ramAlertCount == RamRun(history)
      && ramIncreasing == (RamRun(history) > 0)
      && lastRam == (if history == [] then None else Some(history[|history| - 1].ram))
      && alerts == LastAlerts(Emitted(history))
    }

    constructor ()
      ensures Valid() && history == []
    {
      cpuAlertCount, ramAlertCount, ramIncreasing, lastRam, alerts, history := 0, 0, false, None, [], [];
    }

    method AddAlert(alert: Alert, ghost emitted: seq<Alert>)
      requires alerts == LastAlerts(emitted)
      modifies this`alerts
      ensures alerts == LastAlerts(emitted + [alert])
    {
      alerts := alerts + [alert];
      if |alerts| > MAX_ALERTS { alerts := alerts[1..]; }
    }

    method CheckCpu(r: Reading, ghost before: seq<Reading>, ghost emitted: seq<Alert>)
      requires cpuAlertCount == CpuRun(before) && alerts == LastAlerts(emitted)
      modifies this`cpuAlertCount, this`alerts
      ensures cpuAlertCount == CpuRun(before + [r]) && alerts == LastAlerts(emitted + CpuAlerts(before + [r]))
    {
      ghost var h := before + [r];
      assert h[..|h| - 1] == before && emitted + [] == emitted;
      if r.cpu > CPU_THRESHOLD {
        cpuAlertCount := cpuAlertCount + 1;
        if cpuAlertCount >= CPU_ALERT_MINUTES { AddAlert(CpuHigh(r.cpu, cpuAlertCount), emitted); }
      } else {
        cpuAlertCount := 0;
      }
    }

    method CheckRam(r: Reading, ghost before: seq<Reading>, ghost emitted: seq<Alert>)
      requires ramAlertCount == RamRun(before) && ramIncreasing == (RamRun(before) > 0) && alerts == LastAlerts(emitted)
      requires lastRam == if before == [] then None else Some(before[|before| - 1].ram)
      modifies this`ramAlertCount, this`ramIncreasing, this`lastRam, this`alerts
      ensures ramAlertCount == RamRun(before + [r]) && ramIncreasing == (RamRun(before + [r]) > 0)
      ensures lastRam == Some(r.ram) && alerts == LastAlerts(emitted + RamAlerts(before + [r]))
    {
      ghost var h := before + [r];
      assert h[..|h| - 1] == before && emitted + [] == emitted;
      if lastRam.Some? {
        if r.ram > lastRam.value {
          ramIncreasing := true;
          ramAlertCount := ramAlertCount + 1;
          if ramAlertCount >= RAM_ALERT_CHECKS { AddAlert(MemoryLeak(r.ram), emitted); }
        } else {
          ramIncreasing := false;
          ramAlertCount := 0;
        }
      }
      lastRam := Some(r.ram);
    }

    method Check(r: Reading)
      requires Valid()
      modifies this
      ensures Valid() && history == old(history) + [r]
    {
      ghost var emitted := Emitted(history);
      ghost var h := history + [r];
      CheckCpu(r, history, emitted);
      CheckRam(r, history, emitted + CpuAlerts(h));
      ghost var raised := emitted + CpuAlerts(h) + RamAlerts(h);
      if r.zombies > ZOMBIE_THRESHOLD { AddAlert(ZombieCount(r.zombies), raised); }
      EmittedSnoc(history, r);
      history := h;
    }
  }

  // ---------- what the counters mean ----------

  /** The run is at least `n` exactly when the last `n` readings were all high. */
  lemma {:induction false} CpuRunAtLeast(h: seq<Reading>, n: nat)
    ensures CpuRun(h) >= n <==> n <= |h| && forall i :: |h| - n <= i < |h| ==> h[i].cpu > 90
  {
    if n > 0 && h != [] {
      CpuRunAtLeast(h[..|h| - 1], n - 1);
      assert forall i :: 0 <= i < |h| - 1 ==> h[..|h| - 1][i] == h[i];
    }
  }

  /** The run is at least `n` exactly when the last `n` steps were all strict increases. */
  lemma {:induction false} RamRunAtLeast(h: seq<Reading>, n: nat)
    ensures RamRun(h) >= n <==> n == 0 || (n < |h| && forall i :: |h| - n <= i < |h| ==> h[i].ram > h[i - 1].ram)
  {
    if n > 0 && |h| >= 2 {
      RamRunAtLeast(h[..|h| - 1], n - 1);
      assert forall i :: 0 <= i < |h| - 1 ==> h[..|h| - 1][i] == h[i];
    }
  }

  /** A check raises the CPU alert if and only if it and the four checks before it all read above
      ninety percent, so the alert repeats at every check until the run ends; it names the reading and
      the length of the run. */
  lemma CpuAlertFiresIff(h: seq<Reading>)
    requires h != []
    ensures CpuAlerts(h) != [] <==> |h| >= 5 && forall i :: |h| - 5 <= i < |h| ==> h[i].cpu > 90
    ensures forall a :: a in CpuAlerts(h) ==>
      && a.CpuHigh? && a.percent == h[|h| - 1].cpu && a.minutes <= |h|
      && (forall i :: |h| - a.minutes <= i < |h| ==> h[i].cpu > 90)
      && (a.minutes < |h| ==> h[|h| - 1 - a.minutes].cpu <= 90)
  {
    CpuRunAtLeast(h, 5);
    CpuRunAtLeast(h, CpuRun(h));
    CpuRunAtLeast(h, CpuRun(h) + 1);
  }

  /** The memory alert is raised if and only if the last five steps were all strict increases. */
  lemma RamAlertFiresIff(h: seq<Reading>)
    requires h != []
    ensures RamAlerts(h) != [] <==> |h| >= 6 && forall i :: |h| - 5 <= i < |h| ==> h[i].ram > h[i - 1].ram
    ensures forall a :: a in RamAlerts(h) ==> a == MemoryLeak(h[|h| - 1].ram)
  {
    RamRunAtLeast(h, 5);
  }

  /** Every alert ever raised, by the check that raised it: at most one of each kind, the CPU alert
      first, and the zombie alert, with its count, exactly above ten zombies. */
  lemma {:induction false} AlertsOfOneCheck(h: seq<Reading>)
    requires h != []
    ensures Emitted(h) == Emitted(h[..|h| - 1]) + CpuAlerts(h) + RamAlerts(h) + ZombieAlerts(h)
    ensures |CpuAlerts(h)| <= 1 && |RamAlerts(h)| <= 1
    ensures h[|h| - 1].zombies > 10 ==> ZombieAlerts(h) == [ZombieCount(h[|h| - 1].zombies)]
    ensures h[|h| - 1].zombies <= 10 ==> ZombieAlerts(h) == []
  {
  }

  /** What is stored are the last hundred alerts, or all of them. */
  lemma StoredAlertsAreTheLast(es: seq<Alert>)
    ensures |LastAlerts(es)| == if |es| < 100 then |es| else 100
    ensures forall i :: 0 <= i < |LastAlerts(es)| ==> LastAlerts(es)[i] == es[|es| - |LastAlerts(es)| + i]
  {
  }
}
