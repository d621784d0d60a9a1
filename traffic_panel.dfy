/**
 * The rules of the traffic panel (client/src/components/TrafficPanel.tsx):
 * the icon per incident type, the border per severity, the loading / error /
 * empty / list precedence of one region's card and the fixed order of the
 * regions.
 */
module TrafficPanel {
  import opened Optional
  import opened Palette

  datatype Incident = Incident(kind: string, severity: string, location: string, description: string)

  /** One region's traffic data; `incidents` may be absent. */
  datatype TrafficData = TrafficData(incidents: Option<seq<Incident>>)

  const LoadError := "Impossible de charger les données de circulation."
  const NoIncidentsMessage := "Aucun incident signalé pour cette région."

  predicate IsKnownKind(kind: string) {
    kind == "accident" || kind == "construction" || kind == "congestion" || kind == "info"
  }

  /** `getIncidentIcon`: an unknown type gets the congestion icon. */
  function IncidentIcon(kind: string): (icon: Icon)
    ensures icon == AlertCircle <==> kind == "accident"
    ensures icon == Construction <==> kind == "construction"
    ensures icon == Info <==> kind == "info"
    ensures icon == AlertTriangle <==> kind != "accident" && kind != "construction" && kind != "info"
  {
    match kind
    case "accident" => AlertCircle
    case "construction" => Construction
    case "congestion" => AlertTriangle
    case "info" => Info
    case _ => AlertTriangle
  }

  /** `getSeverityBorderColor`: an unknown severity is drawn like a warning. */
  function SeverityBorder(severity: string): (c: Colour)
    ensures c == Red <==> severity == "danger"
    ensures c == Green <==> severity == "success"
    ensures c == Amber <==> severity != "danger" && severity != "success"
    ensures c != Primary
  {
    match severity
    case "danger" => Red
    case "warning" => Amber
    case "success" => Green
    case _ => Amber
  }

  /** The four known types have four different icons; every other type looks like congestion. */
  lemma IncidentIconsDistinct(a: string, b: string)
    ensures IncidentIcon(a) == IncidentIcon("congestion") <==>
      a != "accident" && a != "construction" && a != "info"
    ensures IsKnownKind(a) && IsKnownKind(b) && IncidentIcon(a) == IncidentIcon(b) ==> a == b
  {
  }

  /** One rendered incident. */
  datatype Entry = Entry(icon: Icon, border: Colour, location: string, description: string)

  /** One incident's entry: its own location and description, icon by type, border by severity. */
  function RenderIncident(incident: Incident): (e: Entry)
    ensures e.location == incident.location && e.description == incident.description
    ensures e.icon == IncidentIcon(incident.kind) && e.border == SeverityBorder(incident.severity)
    ensures e.icon == AlertTriangle <==> !IsKnownKind(incident.kind) || incident.kind == "congestion"
    ensures e.border == Red <==> incident.severity == "danger"
    ensures e.border == Amber <==> incident.severity != "danger" && incident.severity != "success"
  {
    Entry(IncidentIcon(incident.kind), SeverityBorder(incident.severity), incident.location, incident.description)
  }

  /** `data.incidents.map(...)`. */
  function RenderIncidents(incidents: seq<Incident>): (entries: seq<Entry>)
    ensures |entries| == |incidents|
    ensures forall i :: 0 <= i < |incidents| ==> entries[i] == RenderIncident(incidents[i])
  {
    if incidents == [] then [] else [RenderIncident(incidents[0])] + RenderIncidents(incidents[1..])
  }

  datatype CardBody =
    | Skeletons(count: nat)
    | CardError(message: string)
    | NoIncidents(message: string)
    | Entries(entries: seq<Entry>)

  datatype TrafficCard = TrafficCard(title: string, body: CardBody)

  /** `renderTrafficCard`: loading, then error or missing data, then no incidents, then the list. */
  function RenderTrafficCard(isLoading: bool, isError: bool, data: Option<TrafficData>, region: string): (card: TrafficCard)
    ensures card.title == region
    ensures isLoading ==> card.body == Skeletons(3)
    ensures !isLoading ==> (card.body.CardError? <==> isError || data.None?)
    ensures card.body.CardError? ==> card.body.message == LoadError
    ensures !isLoading && !isError && data.Some? ==>
      (card.body.NoIncidents? <==> data.value.incidents.None? || data.value.incidents.value == [])
    ensures card.body.NoIncidents? ==> card.body.message == NoIncidentsMessage
    ensures card.body.Entries? ==>
      && !isLoading && !isError && data.Some? && data.value.incidents.Some?
      && |card.body.entries| == |data.value.incidents.value| > 0
      && forall i :: 0 <= i < |card.body.entries| ==>
           var incident := data.value.incidents.value[i];
           card.body.entries[i].icon == IncidentIcon(incident.kind) &&
           card.body.entries[i].border == SeverityBorder(incident.severity) &&
           card.body.entries[i].location == incident.location
    ensures !isLoading && !isError && data.Some? && data.value.incidents.Some? && |data.value.incidents.value| > 0 ==>
      card.body == Entries(RenderIncidents(data.value.incidents.value))
  {
    var body :=
      if isLoading then Skeletons(3)
      else if isError || data.None? then CardError(LoadError)
      else match data.value.incidents
        case Some(incidents) =>
          if |incidents| > 0 then Entries(RenderIncidents(incidents)) else NoIncidents(NoIncidentsMessage)
        case None => NoIncidents(NoIncidentsMessage);
    TrafficCard(region, body)
  }

  /** A region: the key of its data in the query result and the title of its card. */
  datatype Region = Region(key: string, title: string)

  const Regions: seq<Region> := [
    Region("GTA Toronto", "GTA Toronto"),
    Region("Toronto", "Toronto"),
    Region("Hamilton", "Hamilton"),
    Region("Niagara Region", "Région de Niagara")
  ]

  function Lookup(traffic: map<string, TrafficData>, key: string): Option<TrafficData> {
    if key in traffic then Some(traffic[key]) else None
  }

  /** The panel: one card per region, in the fixed order, all sharing one loading and error flag. */
  function RenderPanel(isLoading: bool, isError: bool, traffic: map<string, TrafficData>): (cards: seq<TrafficCard>)
    ensures |cards| == |Regions|
    ensures forall i :: 0 <= i < |Regions| ==>
      cards[i] == RenderTrafficCard(isLoading, isError, Lookup(traffic, Regions[i].key), Regions[i].title)
  {
    seq(|Regions|, i requires 0 <= i < |Regions| =>
      RenderTrafficCard(isLoading, isError, Lookup(traffic, Regions[i].key), Regions[i].title))
  }

  /** The cards read GTA Toronto, Toronto, Hamilton, Région de Niagara; the last takes the "Niagara Region" data. */
  lemma PanelTitlesInOrder(isLoading: bool, isError: bool, traffic: map<string, TrafficData>)
    ensures var cards := RenderPanel(isLoading, isError, traffic);
      && |cards| == 4
      && cards[0].title == "GTA Toronto" && cards[1].title == "Toronto"
      && cards[2].title == "Hamilton" && cards[3].title == "Région de Niagara"
      && cards[3] == RenderTrafficCard(isLoading, isError, Lookup(traffic, "Niagara Region"), "Région de Niagara")
  {
  }
}
