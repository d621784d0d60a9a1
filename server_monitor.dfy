/**
 * The backend port monitor (server/services/serverMonitorService.ts).
 *
 * The network probe `checkPort` is a `Prober`: each call answers from a
 * fixed function of the port and is recorded, in order. The random and
 * clock sources are parameters: `random(k)` is the value returned by the
 * k-th call of Math.random() within one call of the service.
 */
module ServerMonitor {
  import opened Decimal
  import opened Optional

  /** The ports the service monitors, in the order it probes them. */
  const MonitoredPorts: seq<nat> := [5000, 5001, 5002, 5003, 5004, 5005, 5006, 5007, 5008, 5009]

  /** The fixed RAM capacity, in MB, that the system status reports. */
  const RamTotal: nat := 8192

  /** Status strings the backend produces. */
  const Online := "online"
  const Offline := "offline"

  /** Labels of the per-port console line. */
  const OnlineLabel := "En ligne"
  const OfflineLabel := "Hors ligne"

  /** One record of `monitorServer`'s result. */
  datatype ServerInfo = ServerInfo(port: nat, status: string, cpu: int, ram: int)

  /** The record `getSystemStatus` returns; `uptime` is whole seconds. */
  datatype SystemStatus = SystemStatus(cpuAverage: int, ramAverage: int, ramTotal: nat,
                                       uptime: nat, lastUpdated: string)

  /** What awaiting `checkPort(port)` can give: the promise resolves to a flag, or it rejects. */
  datatype ProbeOutcome = Resolved(available: bool) | Threw

  /**
   * `checkPort` as its callers see it: each call answers from `answer`, and
   * the ghost `calls` lists the ports probed so far, in call order.
   */
  class Prober {
    const answer: nat -> ProbeOutcome
    ghost var calls: seq<nat>

    constructor (answer: nat -> ProbeOutcome)
      ensures this.answer == answer && calls == []
    {
      this.answer := answer;
      calls := [];
    }

    method CheckPort(port: nat) returns (outcome: ProbeOutcome)
      modifies this
      ensures calls == old(calls) + [port]
      ensures outcome == answer(port)
    {
      outcome := answer(port);
      calls := calls + [port];
    }
  }

  /** No port of `ports` makes its probe reject. */
  predicate NoneThrow(answer: nat -> ProbeOutcome, ports: seq<nat>) {
    forall i :: 0 <= i < |ports| ==> !answer(ports[i]).Threw?
  }

  /** The probe of `ports[k]` rejects and every earlier one resolves. */
  predicate FirstThrowAt(answer: nat -> ProbeOutcome, ports: seq<nat>, k: nat) {
    k < |ports| && NoneThrow(answer, ports[..k]) && answer(ports[k]).Threw?
  }

  /** When some probe rejects there is a first one to do so, and only one. */
  lemma {:induction false} FirstThrow(answer: nat -> ProbeOutcome, ports: seq<nat>) returns (k: nat)
    requires !NoneThrow(answer, ports)
    ensures FirstThrowAt(answer, ports, k)
    ensures forall l :: FirstThrowAt(answer, ports, l) ==> l == k
  {
    if answer(ports[0]).Threw? {
      k := 0;
    } else {
      var j := FirstThrow(answer, ports[1..]);
      k := j + 1;
      assert ports[..k] == [ports[0]] + ports[1..][..j];
    }
  }

  /** A value Math.random() can return. */
  predicate IsDraw(d: real) {
    0.0 <= d < 1.0
  }

  ghost predicate AllDraws(random: nat -> real) {
    forall k :: IsDraw(random(k))
  }

  /** The status strings `monitorServer` can give a record. */
  predicate IsProbeStatus(s: string) {
    s == Online || s == Offline
  }

  /** `Math.floor(d * n)`, over the reals. */
  function Scaled(d: real, n: nat): (r: int)
    ensures IsDraw(d) && n > 0 ==> 0 <= r < n
  {
    var x := d * n as real;
    assert IsDraw(d) && n > 0 ==> 0.0 <= x && 0.0 < (1.0 - d) * n as real == n as real - x;
    x.Floor
  }

  lemma MonitoredPortsAreConsecutive()
    ensures |MonitoredPorts| == 10
    ensures forall i :: 0 <= i < |MonitoredPorts| ==> MonitoredPorts[i] == 5000 + i
  {
  }

  /** No port is monitored twice. */
  lemma MonitoredPortsDistinct()
    ensures forall i, j :: 0 <= i < j < |MonitoredPorts| ==> MonitoredPorts[i] != MonitoredPorts[j]
  {
    MonitoredPortsAreConsecutive();
  }

  function StatusOf(available: bool): string {
    if available then Online else Offline
  }

  /** The record pushed for one port from its probe result and its two draws. */
  function Record(port: nat, available: bool, cpuDraw: real, ramDraw: real): (r: ServerInfo)
    ensures r.port == port && IsProbeStatus(r.status)
    ensures r.status == Online <==> available
    ensures IsDraw(cpuDraw) ==> 0 <= r.cpu < 100
    ensures IsDraw(ramDraw) ==> 0 <= r.ram < 1024
  {
    ServerInfo(port, StatusOf(available), Scaled(cpuDraw, 100), Scaled(ramDraw, 1024))
  }

  /**
   * `monitorServer`: probes the monitored ports one after another, awaiting
   * each probe before the next, and pushes one record per port. It has no
   * catch, so the first probe that rejects ends the loop and the call
   * rejects (`None`) with no records.
   */
  method MonitorServer(prober: Prober, random: nat -> real) returns (result: Option<seq<ServerInfo>>)
    modifies prober
    ensures result.None? <==> !NoneThrow(prober.answer, MonitoredPorts)
    ensures result.Some? ==> prober.calls == old(prober.calls) + MonitoredPorts
    ensures result.None? ==> exists k ::
      (FirstThrowAt(prober.answer, MonitoredPorts, k) && prober.calls == old(prober.calls) + MonitoredPorts[..k + 1])
    ensures result.Some? ==> |result.value| == |MonitoredPorts|
    ensures result.Some? ==> forall i :: 0 <= i < |result.value| ==>
      && result.value[i].port == MonitoredPorts[i]
      && IsProbeStatus(result.value[i].status)
      && (result.value[i].status == Online <==> prober.answer(MonitoredPorts[i]) == Resolved(true))
    ensures result.Some? ==> forall i :: 0 <= i < |result.value| ==>
      && result.value[i].cpu == Scaled(random(2 * i), 100)
      && result.value[i].ram == Scaled(random(2 * i + 1), 1024)
    ensures result.Some? && AllDraws(random) ==> forall i :: 0 <= i < |result.value| ==>
      0 <= result.value[i].cpu < 100 && 0 <= result.value[i].ram < 1024
  {
    var servers: seq<ServerInfo> := [];
    var draws := 0;
    for i := 0 to |MonitoredPorts|
      invariant prober.calls == old(prober.calls) + MonitoredPorts[..i]
      invariant NoneThrow(prober.answer, MonitoredPorts[..i])
      invariant |servers| == i && draws == 2 * i
      invariant forall j :: 0 <= j < i ==>
        servers[j] == Record(MonitoredPorts[j], prober.answer(MonitoredPorts[j]) == Resolved(true),
                             random(2 * j), random(2 * j + 1))
    {
      var port := MonitoredPorts[i];
      var outcome := prober.CheckPort(port);
      assert MonitoredPorts[..i + 1] == MonitoredPorts[..i] + [port];
      if outcome.Threw? {
        assert FirstThrowAt(prober.answer, MonitoredPorts, i);
        return None;
      }
      var cpu := Scaled(random(draws), 100);
      var ram := Scaled(random(draws + 1), 1024);
      draws := draws + 2;
      servers := servers + [ServerInfo(port, if outcome.available then Online else Offline, cpu, ram)];
      assert outcome.available <==> prober.answer(port) == Resolved(true);
      assert servers[i] == Record(port, prober.answer(port) == Resolved(true), random(2 * i), random(2 * i + 1));
    }
    assert MonitoredPorts[..|MonitoredPorts|] == MonitoredPorts;
    forall i | 0 <= i < |servers| && AllDraws(random)
      ensures 0 <= servers[i].cpu < 100 && 0 <= servers[i].ram < 1024
    {
      assert IsDraw(random(2 * i)) && IsDraw(random(2 * i + 1));
    }
    result := Some(servers);
  }

  /** The console line `getPortsStatus` prints for one port; it reads back into its port and state. */
  function PortLine(port: nat, available: bool): (line: string)
    ensures ReadPortLine(line) == Some((port, available))
  {
    var word := if available then OnlineLabel else OfflineLabel;
    var line := "Port " + NatToString(port) + " : " + word;
    ReadNumeralAfterPrint(port, " : ", word);
    assert line[..5] == "Port " && line[5..] == NatToString(port) + " : " + word;
    line
  }

  /**
   * `getPortsStatus`: probes every monitored port in turn and prints one
   * line per port. A probe that rejects is caught and reported offline, so
   * no failure escapes the loop, and the loop reaches the last port whenever
   * every probe settles.
   */
  method GetPortsStatus(prober: Prober) returns (lines: seq<string>)
    modifies prober
    ensures prober.calls == old(prober.calls) + MonitoredPorts
    ensures |lines| == |MonitoredPorts|
    ensures forall i :: 0 <= i < |lines| ==>
      lines[i] == PortLine(MonitoredPorts[i], prober.answer(MonitoredPorts[i]) == Resolved(true))
  {
    lines := [];
    for i := 0 to |MonitoredPorts|
      invariant prober.calls == old(prober.calls) + MonitoredPorts[..i]
      invariant |lines| == i
      invariant forall j :: 0 <= j < i ==>
        lines[j] == PortLine(MonitoredPorts[j], prober.answer(MonitoredPorts[j]) == Resolved(true))
    {
      var port := MonitoredPorts[i];
      var outcome := prober.CheckPort(port);
      assert MonitoredPorts[..i + 1] == MonitoredPorts[..i] + [port];
      match outcome
      case Resolved(isPortAvailable) =>
        if isPortAvailable {
          lines := lines + ["Port " + NatToString(port) + " : " + OnlineLabel];
        } else {
          lines := lines + ["Port " + NatToString(port) + " : " + OfflineLabel];
        }
      case Threw =>
        lines := lines + ["Port " + NatToString(port) + " : " + OfflineLabel];
    }
    assert MonitoredPorts[..|MonitoredPorts|] == MonitoredPorts;
  }

  /** Reads a console line back into its port and whether it says online. */
  function ReadPortLine(line: string): Option<(nat, bool)> {
    if |line| < 5 || line[..5] != "Port " then None
    else match ReadNumeral(line[5..], " : ")
      case None => None
      case Some((port, word)) =>
        if word == OnlineLabel then Some((port, true))
        else if word == OfflineLabel then Some((port, false))
        else None
  }

  /** Lines for different ports or different states differ. */
  lemma PortLineInjective(p: nat, a: bool, q: nat, b: bool)
    requires PortLine(p, a) == PortLine(q, b)
    ensures p == q && a == b
  {
    assert ReadPortLine(PortLine(p, a)) == Some((p, a));
  }

  /**
   * `getSystemStatus`: two random draws, the clock in milliseconds and its
   * ISO text. `uptime` is the clock in whole seconds, rounded down.
   */
  function GetSystemStatus(cpuDraw: real, ramDraw: real, nowMillis: nat, nowIso: string): (r: SystemStatus)
    ensures r.ramTotal == RamTotal
    ensures IsDraw(cpuDraw) ==> 0 <= r.cpuAverage < 100
    ensures IsDraw(ramDraw) ==> 0 <= r.ramAverage < r.ramTotal
    ensures r.uptime * 1000 <= nowMillis < (r.uptime + 1) * 1000
    ensures r.lastUpdated == nowIso
  {
    SystemStatus(Scaled(cpuDraw, 100), Scaled(ramDraw, 8192), 8192, nowMillis / 1000, nowIso)
  }
}
