/**
 * How the backend's records meet the server monitoring panel, assuming the
 * records the panel's query returns are those `monitorServer` produced (the
 * route and the data hook between them are not part of this model), and how
 * the console line of `getPortsStatus` uses the same wording as the card text.
 */
module Consistency {
  import opened Decimal
  import opened Palette
  import opened ServerMonitor
  import opened ServerPanel

  /** A status the backend produces is never styled amber, and its text is the console label. */
  lemma ProbeStatusStyling(status: string)
    requires IsProbeStatus(status)
    ensures TextColour(status) != Amber && StatusIcon(status).icon != AlertTriangle
    ensures StatusText(status) == (if status == Online then OnlineLabel else OfflineLabel)
  {
  }

  /** The console line of a port ends with the text its card shows. */
  lemma PortLineMatchesCardText(port: nat, available: bool)
    ensures PortLine(port, available) == "Port " + NatToString(port) + " : " + StatusText(StatusOf(available))
  {
  }

  /** An offline record's bar is red whatever its load; an online one is amber exactly above 75. */
  lemma RecordBarColour(port: nat, available: bool, cpuDraw: real, ramDraw: real)
    ensures var r := Record(port, available, cpuDraw, ramDraw);
      && (!available ==> ProgressBarColour(r.status, r.cpu) == Red)
      && (available ==> (ProgressBarColour(r.status, r.cpu) == Amber <==> r.cpu > 75))
  {
  }

  /**
   * One round as the dashboard sees it: the backend probes the ports and the
   * grid, once loaded, shows one card per monitored port in order, red
   * exactly for the ports whose probe resolved false. A rejected probe makes
   * `monitorServer` reject, and the panel then shows its error.
   */
  method ProbeAndRender(prober: Prober, random: nat -> real) returns (grid: Grid)
    modifies prober
    ensures grid.GridError? <==> !NoneThrow(prober.answer, MonitoredPorts)
    ensures grid.GridError? || grid.CardGrid?
    ensures grid.CardGrid? ==> |grid.cards| == |MonitoredPorts| && forall i :: 0 <= i < |grid.cards| ==>
      && grid.cards[i].port == 5000 + i
      && (grid.cards[i].textColour == Red <==> prober.answer(5000 + i) == Resolved(false))
      && grid.cards[i].text == (if prober.answer(5000 + i) == Resolved(true) then OnlineLabel else OfflineLabel)
  {
    var result := MonitorServer(prober, random);
    MonitoredPortsAreConsecutive();
    if result.Some? {
      grid := RenderServerGrid(false, false, ServerList(result.value));
      forall i | 0 <= i < |grid.cards|
        ensures grid.cards[i] == RenderServerCard(result.value[i])
        ensures !prober.answer(5000 + i).Threw?
      {
        assert MonitoredPorts[i] == 5000 + i;
      }
    } else {
      grid := RenderServerGrid(false, true, NoServerData);
    }
  }
}
