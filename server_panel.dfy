/**
 * The presentation rules of the server monitoring panel
 * (client/src/components/ServerMonitoringPanel.tsx): the status styling, the
 * uptime breakdown, the progress-bar colour and which of loading, error or
 * data each part of the panel shows.
 */
module ServerPanel {
  import opened Optional
  import opened Decimal
  import opened Palette
  import opened ServerMonitor

  const Warning := "warning"
  const Restarting := "restarting"

  const ServerGridError := "Impossible de charger les données des serveurs."
  const SystemCardError := "Impossible de charger les données du système."

  /** The four statuses the panel styles explicitly. */
  predicate IsKnownStatus(status: string) {
    status == Online || status == Offline || status == Warning || status == Restarting
  }

  /** Statuses drawn in amber. */
  predicate IsAmberStatus(status: string) {
    status == Warning || status == Restarting
  }

  datatype StatusGlyph = StatusGlyph(icon: Icon, colour: Colour)

  /** `getTextColorClass`: offline is red, warning and restarting amber, everything else green. */
  function TextColour(status: string): (c: Colour)
    ensures c == Red <==> status == Offline
    ensures c == Amber <==> IsAmberStatus(status)
    ensures c == Green <==> status != Offline && !IsAmberStatus(status)
    ensures c != Primary
  {
    match status
    case "online" => Green
    case "offline" => Red
    case "warning" => Amber
    case "restarting" => Amber
    case _ => Green
  }

  /** `getStatusIcon`: the glyph has the same colour as the status text. */
  function StatusIcon(status: string): (g: StatusGlyph)
    ensures g.colour == TextColour(status)
    ensures g.icon == XCircle <==> status == Offline
    ensures g.icon == AlertTriangle <==> IsAmberStatus(status)
    ensures g.icon == CheckCircle <==> status != Offline && !IsAmberStatus(status)
  {
    match status
    case "online" => StatusGlyph(CheckCircle, Green)
    case "offline" => StatusGlyph(XCircle, Red)
    case "warning" => StatusGlyph(AlertTriangle, Amber)
    case "restarting" => StatusGlyph(AlertTriangle, Amber)
    case _ => StatusGlyph(CheckCircle, Green)
  }

  /** `getStatusText`; a status the panel does not know reads as online. */
  function StatusText(status: string): (t: string)
    ensures t == OnlineLabel <==> status != Offline && !IsAmberStatus(status)
    ensures t == OfflineLabel <==> status == Offline
    ensures t == "Chargé" <==> status == Warning
    ensures t == "Redémarrage" <==> status == Restarting
  {
    match status
    case "online" => OnlineLabel
    case "offline" => OfflineLabel
    case "warning" => "Chargé"
    case "restarting" => "Redémarrage"
    case _ => OnlineLabel
  }

  /** An unknown status is styled and labelled exactly like "online". */
  lemma UnknownStatusLooksOnline(status: string)
    requires !IsKnownStatus(status)
    ensures StatusText(status) == StatusText(Online)
    ensures StatusIcon(status) == StatusIcon(Online)
    ensures TextColour(status) == TextColour(Online)
  {
  }

  /** Warning and restarting share all styling and differ only in their text. */
  lemma WarningAndRestartingShareStyling()
    ensures StatusIcon(Warning) == StatusIcon(Restarting)
    ensures TextColour(Warning) == TextColour(Restarting) == Amber
    ensures StatusText(Warning) != StatusText(Restarting)
  {
  }

  /** The four known statuses have four different texts. */
  lemma StatusTextInjectiveOnKnown(a: string, b: string)
    requires IsKnownStatus(a) && IsKnownStatus(b)
    requires StatusText(a) == StatusText(b)
    ensures a == b
  {
  }

  /** A whole number of seconds split into days, hours and minutes. */
  datatype Uptime = Uptime(days: nat, hours: nat, minutes: nat)

  function UptimeSeconds(u: Uptime): nat {
    u.days * 86400 + u.hours * 3600 + u.minutes * 60
  }

  /** `u` is the breakdown of `seconds`, rounded down to the minute. */
  predicate IsBreakdown(u: Uptime, seconds: nat) {
    u.hours < 24 && u.minutes < 60 && UptimeSeconds(u) <= seconds < UptimeSeconds(u) + 60
  }

  /** `formatUptime`'s three quantities, for a non-negative whole number of seconds. */
  function FormatUptime(seconds: nat): (u: Uptime)
    ensures IsBreakdown(u, seconds)
  {
    var days := seconds / 86400;
    var hours := (seconds % 86400) / 3600;
    var minutes := (seconds % 3600) / 60;
    assert seconds % 3600 == (seconds % 86400) % 3600 by {
      DayRestModHour(seconds);
    }
    Uptime(days, hours, minutes)
  }

  /** A whole day is a whole number of hours. */
  lemma DayRestModHour(seconds: nat)
    ensures seconds % 3600 == (seconds % 86400) % 3600
  {
    var d := seconds / 86400;
    var r := seconds % 86400;
    assert seconds == (24 * d) * 3600 + r;
  }

  /** The breakdown is unique: `formatUptime` agrees with every breakdown of the same seconds. */
  lemma BreakdownUnique(seconds: nat, u: Uptime)
    requires IsBreakdown(u, seconds)
    ensures FormatUptime(seconds) == u
  {
    var v := FormatUptime(seconds);
    var dayRest := u.hours * 3600 + u.minutes * 60 + (seconds - UptimeSeconds(u));
    assert 0 <= dayRest < 86400;
    assert seconds == u.days * 86400 + dayRest;
    assert seconds / 86400 == u.days && seconds % 86400 == dayRest;
    var hourRest := u.minutes * 60 + (seconds - UptimeSeconds(u));
    assert 0 <= hourRest < 3600;
    assert dayRest == u.hours * 3600 + hourRest;
    assert dayRest / 3600 == u.hours && dayRest % 3600 == hourRest;
    DayRestModHour(seconds);
    assert hourRest / 60 == u.minutes;
  }

  /** The text `formatUptime` returns; its three numerals read back to the breakdown. */
  function UptimeText(seconds: nat): (t: string)
    ensures ReadUptimeText(t) == Some(FormatUptime(seconds))
  {
    var u := FormatUptime(seconds);
    var minutesPart := NatToString(u.minutes) + " minutes";
    var hoursPart := NatToString(u.hours) + " heures, " + minutesPart;
    ReadNumeralAfterPrint(u.days, " jours, ", hoursPart);
    ReadNumeralAfterPrint(u.hours, " heures, ", minutesPart);
    ReadNumeralAfterPrint(u.minutes, " minutes", "");
    assert minutesPart == NatToString(u.minutes) + " minutes" + "";
    NatToString(u.days) + " jours, " + hoursPart
  }

  /** Reads an uptime text back into its days, hours and minutes. */
  function ReadUptimeText(t: string): Option<Uptime> {
    match ReadNumeral(t, " jours, ")
    case None => None
    case Some((days, afterDays)) =>
      match ReadNumeral(afterDays, " heures, ")
      case None => None
      case Some((hours, afterHours)) =>
        match ReadNumeral(afterHours, " minutes")
        case None => None
        case Some((minutes, tail)) => if tail == "" then Some(Uptime(days, hours, minutes)) else None
  }

  /** The `progressBarColor` of `renderServerCard`: offline first, then a CPU load above 75. */
  function ProgressBarColour(status: string, cpu: int): (c: Colour)
    ensures c == Red <==> status == Offline
    ensures c == Amber <==> status != Offline && cpu > 75
    ensures c == Primary <==> status != Offline && cpu <= 75
  {
    if status == Offline then Red else if cpu > 75 then Amber else Primary
  }

  /** What `renderServerCard` shows for one server. */
  datatype ServerCard = ServerCard(port: nat, textColour: Colour, glyph: StatusGlyph, text: string, bar: Colour)

  /** `renderServerCard`: icon and text share one colour; offline is red in both text and bar. */
  function RenderServerCard(server: ServerInfo): (card: ServerCard)
    ensures card.port == server.port
    ensures card.textColour == TextColour(server.status) && card.glyph == StatusIcon(server.status)
    ensures card.text == StatusText(server.status) && card.bar == ProgressBarColour(server.status, server.cpu)
    ensures card.glyph.colour == card.textColour
    ensures card.textColour == Red <==> server.status == Offline
    ensures card.bar == Red <==> server.status == Offline
    ensures card.text == OfflineLabel <==> server.status == Offline
  {
    ServerCard(server.port, TextColour(server.status), StatusIcon(server.status),
               StatusText(server.status), ProgressBarColour(server.status, server.cpu))
  }

  /** `serverStatusData.map(renderServerCard)`. */
  function RenderServerCards(servers: seq<ServerInfo>): (cards: seq<ServerCard>)
    ensures |cards| == |servers|
    ensures forall i :: 0 <= i < |servers| ==> cards[i] == RenderServerCard(servers[i])
  {
    if servers == [] then [] else [RenderServerCard(servers[0])] + RenderServerCards(servers[1..])
  }

  /** What the server-status query result can hold. */
  datatype ServerData = NoServerData | NotAnArray | ServerList(servers: seq<ServerInfo>)

  datatype Grid = GridSkeletons(count: nat) | GridError(message: string) | CardGrid(cards: seq<ServerCard>)

  /** `renderServerGrid`: loading, then error or unusable data, then one card per server. */
  function RenderServerGrid(isLoading: bool, isError: bool, data: ServerData): (g: Grid)
    ensures isLoading ==> g == GridSkeletons(10)
    ensures !isLoading ==> (g.GridError? <==> isError || !data.ServerList?)
    ensures g.GridError? ==> g.message == ServerGridError
    ensures g.CardGrid? ==> !isLoading && !isError && data.ServerList? && |g.cards| == |data.servers|
    ensures g.CardGrid? ==> forall i :: 0 <= i < |g.cards| ==> g.cards[i].port == data.servers[i].port
    ensures !isLoading && !isError && data.ServerList? ==> g == CardGrid(RenderServerCards(data.servers))
  {
    if isLoading then GridSkeletons(10)
    else if isError || !data.ServerList? then GridError(ServerGridError)
    else CardGrid(RenderServerCards(data.servers))
  }

  /** What `renderSystemStatus` shows; the RAM percentage and the time of day are not modelled. */
  datatype SystemCard =
    | SystemSkeleton(bars: nat)
    | SystemError(message: string)
    | SystemDetails(cpuAverage: int, ramAverage: int, ramTotal: nat, uptime: Uptime, uptimeText: string, lastUpdated: string)

  /** `renderSystemStatus`: loading wins over error; error or missing data shows the error text. */
  function RenderSystemStatus(isLoading: bool, isError: bool, data: Option<SystemStatus>): (card: SystemCard)
    ensures isLoading ==> card == SystemSkeleton(6)
    ensures !isLoading ==> (card.SystemError? <==> isError || data.None?)
    ensures card.SystemError? ==> card.message == SystemCardError
    ensures card.SystemDetails? ==>
      && data.Some?
      && card.cpuAverage == data.value.cpuAverage
      && card.ramAverage == data.value.ramAverage
      && card.ramTotal == data.value.ramTotal
      && IsBreakdown(card.uptime, data.value.uptime)
      && card.lastUpdated == data.value.lastUpdated
    ensures !isLoading && !isError && data.Some? ==>
      && card.SystemDetails?
      && card.uptime == FormatUptime(data.value.uptime)
      && card.uptimeText == UptimeText(data.value.uptime)
  {
    if isLoading then SystemSkeleton(6)
    else if isError || data.None? then SystemError(SystemCardError)
    else
      var s := data.value;
      SystemDetails(s.cpuAverage, s.ramAverage, s.ramTotal, FormatUptime(s.uptime), UptimeText(s.uptime), s.lastUpdated)
  }
}
