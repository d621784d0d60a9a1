# BeaverMonitor dashboard core, modelled in Dafny

BeaverMonitor is a browser dashboard with weather, traffic and local-server
panels. This project models the parts of it that make decisions:

- **The port monitor service** (`server/services/serverMonitorService.ts`). `monitorServer` probes
  ports 5000 to 5009 one after another. For each port it pushes a record with
  the port, `online` or `offline`, and two random load figures.
  `getPortsStatus` prints one console line per port and swallows every error.
  `getSystemStatus` builds a record with a fixed 8192 MB RAM total.
  Module `ServerMonitor`, file `server_monitor.dfy`.
- **The server monitoring panel** (`ServerMonitoringPanel.tsx`). It maps a status string to a
  text, an icon and a colour. It splits the uptime into days, hours and minutes
  and picks the colour of the CPU bar. It chooses between loading, error and
  data for the server grid and for the system card. Module `ServerPanel`, file
  `server_panel.dfy`.
- **The video player panel** (`VideoPlayerPanel.tsx`). It has three state cells:
  `playing`, `currentVideoIndex` and `error`. Three event handlers change them,
  over a fixed playlist of six videos. Class `VideoPlayer.Player` holds the cells as
  fields. Each handler method is tied to a transition function on
  `PlayerState`, and the lemmas are stated about those functions. File
  `video_player.dfy`.
- **The traffic panel** (`TrafficPanel.tsx`). It maps an incident type to an icon and a
  severity to a border colour. It decides between loading, error, "no
  incidents" and a list for each region's card. It shows the four regions in a
  fixed order. Module `TrafficPanel`, file `traffic_panel.dfy`.

Three small helper modules go with them. `Optional` holds an Option type. `Decimal` writes and reads
back the decimal numerals that the template literals print. `Palette` names
the colours and icons. Module `Consistency` connects the backend's records to the panel that shows them, assuming the panel receives the records `monitorServer` built; the route and data hook between them are not part of this model.

The outside world is given as parameters:

- `checkPort` is an object of class `ServerMonitor.Prober`. Each call answers
  from a fixed function `answer` of the port: the promise resolves to true or
  false, or it rejects. A ghost field `calls` records the probed ports in call
  order. The code's `checkPort` only rejects when `http.get` throws inside
  the promise executor. The model allows a rejection for every port all the
  same, so both callers' error paths are covered.
- `random(k)` is the value of the k-th call of `Math.random()` in one call of the
  service. In `monitorServer`, port i uses calls 2i (CPU) and 2i+1 (RAM).
- `Date.now()` is a natural number of milliseconds, and its ISO text is a
  string.

The code probes the ports one after another, not concurrently. It never
derives a `warning` status from the CPU load, averages nothing and keeps no
status store. Its `uptime` is the wall clock in whole seconds
(`Date.now()/1000`), not the time the process has been running.

In `renderServerCard` the progress-bar colour is computed but never used in the
markup. It is modelled all the same, as the colour the card would give.

## Model

| member | source | states |
|---|---|---|
| `ServerMonitor.Scaled` | server/services/serverMonitorService.ts:72-73 | `Math.floor(d * n)` lies in 0..n-1 for every draw d in [0,1) |
| `ServerMonitor.MonitoredPortsAreConsecutive` | server/services/serverMonitorService.ts:64 | ten ports are monitored, the i-th being 5000+i |
| `ServerMonitor.MonitoredPortsDistinct` | server/services/serverMonitorService.ts:64 | no port is monitored twice |
| `ServerMonitor.Record` | server/services/serverMonitorService.ts:69-74 | the record carries its port, a status that is `online` iff the probe returned true and `offline` otherwise, CPU in 0..99 and RAM in 0..1023 for draws in [0,1) |
| `ServerMonitor.Prober.constructor` | server/services/serverMonitorService.ts:7-24 | a new prober answers from the given function and has probed nothing yet |
| `ServerMonitor.Prober.CheckPort` | server/services/serverMonitorService.ts:7-24 | one probe: the port is appended to `calls` and the outcome is the prober's answer for that port |
| `ServerMonitor.FirstThrow` | server/services/serverMonitorService.ts:67-68 | when some probe of a port list rejects, there is exactly one first position whose probe rejects while all earlier ones resolve |
| `ServerMonitor.MonitorServer` | server/services/serverMonitorService.ts:63-78 | the call rejects iff some probe rejects, since the loop has no catch. When it rejects, the ports are probed in list order up to and including the first rejecting one, and no further. Otherwise every port is probed exactly once, in list order, and there is one record per port in that order with the i-th port. Its status is `online` iff the probe resolved true and `offline` otherwise, never anything else. CPU and RAM come from the port's two draws and lie in 0..99 and 0..1023 when the draws are in [0,1) |
| `ServerMonitor.GetPortsStatus` | server/services/serverMonitorService.ts:27-49 | every monitored port is probed exactly once, in list order, and prints exactly one line, in order: `Port <n> : En ligne` iff the probe resolved true, `Hors ligne` when it resolved false or rejected. No failure escapes the loop, and it reaches the last port whenever every probe settles |
| `ServerMonitor.PortLine` | server/services/serverMonitorService.ts:36-43 | the line `Port <n> : En ligne` or `Port <n> : Hors ligne` reads back into exactly its port and its online/offline state |
| `ServerMonitor.PortLineInjective` | server/services/serverMonitorService.ts:37-43 | lines for different ports, or for different states of one port, differ |
| `ServerMonitor.GetSystemStatus` | server/services/serverMonitorService.ts:52-60 | `ramTotal` is always 8192. `cpuAverage` lies in 0..99 and `ramAverage` in 0..8191, below `ramTotal`, for draws in [0,1). `uptime` is the clock rounded down to whole seconds, and `lastUpdated` is the clock's ISO text |
| `Decimal.NatToString` | server/services/serverMonitorService.ts:37 | the numeral printed for a whole number is non-empty and all digits, with no leading zero except for 0 itself |
| `Decimal.ParseNatToString` | client/src/components/ServerMonitoringPanel.tsx:58 | reading a printed numeral back gives the number |
| `Decimal.NatToStringInjective` | client/src/components/ServerMonitoringPanel.tsx:58 | different numbers print differently |
| `Decimal.LeadingDigitsOfPrefix` | server/services/serverMonitorService.ts:37 | a numeral followed by a non-digit is read up to its last digit |
| `Decimal.ReadNumeralAfterPrint` | client/src/components/ServerMonitoringPanel.tsx:58 | a printed numeral followed by a fixed separator reads back as the number and the text after the separator |
| `ServerPanel.TextColour` | client/src/components/ServerMonitoringPanel.tsx:39-51 | red iff offline, amber iff warning or restarting, green for every other string, never the primary colour |
| `ServerPanel.StatusIcon` | client/src/components/ServerMonitoringPanel.tsx:10-22 | the icon's colour equals the text colour for every status. The glyph is a cross iff offline, a triangle iff warning or restarting, and a check mark otherwise |
| `ServerPanel.StatusText` | client/src/components/ServerMonitoringPanel.tsx:24-37 | online gives "En ligne", offline "Hors ligne", warning "Chargé", restarting "Redémarrage", and any other string "En ligne" |
| `ServerPanel.UnknownStatusLooksOnline` | client/src/components/ServerMonitoringPanel.tsx:19-20 | an unknown status gets exactly the text, icon and colour of `online` |
| `ServerPanel.WarningAndRestartingShareStyling` | client/src/components/ServerMonitoringPanel.tsx:16-18 | warning and restarting share icon and amber colour but have different texts |
| `ServerPanel.StatusTextInjectiveOnKnown` | client/src/components/ServerMonitoringPanel.tsx:24-37 | the four known statuses have four different texts |
| `ServerPanel.FormatUptime` | client/src/components/ServerMonitoringPanel.tsx:53-56 | hours in 0..23 and minutes in 0..59. days·86400 + hours·3600 + minutes·60 ≤ seconds < that + 60 |
| `ServerPanel.BreakdownUnique` | client/src/components/ServerMonitoringPanel.tsx:53-58 | any days/hours/minutes with those bounds and that reconstruction is the one `formatUptime` computes |
| `ServerPanel.UptimeText` | client/src/components/ServerMonitoringPanel.tsx:58 | the text `<d> jours, <h> heures, <m> minutes` reads back into exactly the breakdown `formatUptime` computes |
| `ServerPanel.ProgressBarColour` | client/src/components/ServerMonitoringPanel.tsx:71-76 | red iff offline whatever the CPU. Otherwise amber iff CPU > 75, else primary, so CPU = 75 gives primary |
| `ServerPanel.RenderServerCard` | client/src/components/ServerMonitoringPanel.tsx:70-89 | the card shows its server's port, and its text colour, icon, text and bar colour are exactly those the status rules and the offline-then-CPU > 75 bar rule give its status and CPU; icon and text share one colour |
| `ServerPanel.RenderServerCards` | client/src/components/ServerMonitoringPanel.tsx:108 | one card per server, in input order, each rendered from its own server |
| `ServerPanel.RenderServerGrid` | client/src/components/ServerMonitoringPanel.tsx:91-111 | loading shows exactly 10 placeholders. Otherwise an error shows iff the query failed or the data is missing or not an array. Otherwise the grid is exactly one rendered card per server, in input order; an empty list gives an empty grid |
| `ServerPanel.RenderSystemStatus` | client/src/components/ServerMonitoringPanel.tsx:113-170 | loading wins over error. Otherwise error or missing data shows the error text. Otherwise the details card always shows, carrying the snapshot's figures, the uptime breakdown and the uptime text |
| `VideoPlayer.ErrorText` | client/src/components/VideoPlayerPanel.tsx:26-31 | the text is the message, or "Failed to load video" when it is absent or empty, followed by ". Please check if the video file exists." |
| `VideoPlayer.Failed` | client/src/components/VideoPlayerPanel.tsx:26-31 | `handleError` stops playback, keeps the index, records the error text, and keeps the invariant |
| `VideoPlayer.Ended` | client/src/components/VideoPlayerPanel.tsx:33-36 | `handleEnded` stops playback and keeps the error. It advances the index by one, from the last video wraps to 0, and keeps 0 ≤ index < 6 |
| `VideoPlayer.Toggled` | client/src/components/VideoPlayerPanel.tsx:38-41 | `togglePlay` clears the error, negates playing, keeps the index, and keeps the invariant |
| `VideoPlayer.ToggledTwice` | client/src/components/VideoPlayerPanel.tsx:38-41 | toggling twice restores playing and the index, with the error cleared |
| `VideoPlayer.OverlayButton` | client/src/components/VideoPlayerPanel.tsx:74-83 | the play button shows iff not playing, else the pause button |
| `VideoPlayer.InitialIsValid` | client/src/components/VideoPlayerPanel.tsx:13-15 | the initial state is not playing, index 0, no error, and satisfies the invariant |
| `VideoPlayer.EndedTimesIndex` | client/src/components/VideoPlayerPanel.tsx:35 | after n endings the index is (start + n) mod 6 |
| `VideoPlayer.EndedTimesKeepsError` | client/src/components/VideoPlayerPanel.tsx:33-36 | any number of endings leaves the recorded error as it was |
| `VideoPlayer.SixEndingsReturn` | client/src/components/VideoPlayerPanel.tsx:35 | six consecutive endings return the index to its start |
| `VideoPlayer.ErrorBannerIffError` | client/src/components/VideoPlayerPanel.tsx:45-49 | in every reachable state the banner shows iff an error is recorded |
| `VideoPlayer.Player.CurrentVideo` | client/src/components/VideoPlayerPanel.tsx:53 | the player always loads a playlist entry |
| `VideoPlayer.Player.constructor` | client/src/components/VideoPlayerPanel.tsx:13-15 | the fields start not playing, at index 0, with no error |
| `VideoPlayer.Player.HandleError` | client/src/components/VideoPlayerPanel.tsx:26-31 | the fields become the `handleError` transition of the old fields, and the invariant is kept |
| `VideoPlayer.Player.HandleEnded` | client/src/components/VideoPlayerPanel.tsx:33-36 | the fields become the `handleEnded` transition of the old fields, and the invariant is kept |
| `VideoPlayer.Player.TogglePlay` | client/src/components/VideoPlayerPanel.tsx:38-41 | the fields become the `togglePlay` transition of the old fields, and the invariant is kept |
| `VideoPlayer.PlayThroughPlaylist` | client/src/components/VideoPlayerPanel.tsx:33-36 | a client of the class: a player whose six videos each end returns to the video it started on, paused, with its error unchanged |
| `TrafficPanel.IncidentIcon` | client/src/components/TrafficPanel.tsx:15-28 | accident, construction and info each have their own icon. Congestion and every unknown type get the triangle |
| `TrafficPanel.IncidentIconsDistinct` | client/src/components/TrafficPanel.tsx:15-28 | the four known types have four different icons, and a type looks like congestion iff it is not one of the other three |
| `TrafficPanel.SeverityBorder` | client/src/components/TrafficPanel.tsx:30-41 | red iff danger, green iff success, amber for warning and every other severity |
| `TrafficPanel.RenderIncident` | client/src/components/TrafficPanel.tsx:73-79 | an entry shows its own incident's location and description, the icon `getIncidentIcon` gives its type and the border `getSeverityBorderColor` gives its severity: the triangle iff the type is congestion or unknown, red iff danger, amber iff neither danger nor success |
| `TrafficPanel.RenderIncidents` | client/src/components/TrafficPanel.tsx:72-80 | one entry per incident, in order, each from its own incident |
| `TrafficPanel.RenderTrafficCard` | client/src/components/TrafficPanel.tsx:43-87 | loading shows 3 placeholders whatever error or data. Otherwise an error shows iff the query failed or the data is missing. Then missing or empty incidents show "Aucun incident signalé". Otherwise the card is exactly one rendered entry per incident, in order, with icon from type, border from severity and the incident's location |
| `TrafficPanel.RenderPanel` | client/src/components/TrafficPanel.tsx:96-99 | one card per region, in the fixed region order, each rendered from that region's data |
| `TrafficPanel.PanelTitlesInOrder` | client/src/components/TrafficPanel.tsx:6-13 | the cards read GTA Toronto, Toronto, Hamilton, Région de Niagara, and the last shows the "Niagara Region" data |
| `Consistency.ProbeStatusStyling` | server/services/serverMonitorService.ts:71 | a status the backend produces is never styled amber, and its card text is the console label |
| `Consistency.PortLineMatchesCardText` | server/services/serverMonitorService.ts:36-40 | the console line of a port ends with the text its card shows |
| `Consistency.RecordBarColour` | client/src/components/ServerMonitoringPanel.tsx:71-76 | for a backend record the bar is red iff the port is offline. For an online port it is amber iff CPU > 75 |
| `Consistency.ProbeAndRender` | client/src/components/ServerMonitoringPanel.tsx:100-110 | the grid shows its error iff some probe rejected, which makes `monitorServer` reject. Otherwise it has ten cards for ports 5000..5009 in order. A card is red iff its probe resolved false, and its text is "En ligne" or "Hors ligne" accordingly |

## Left out

- `checkPort`'s network call: the prober answers every call at once from a fixed function. The code sets a 1000 ms `timeout` option but has no `'timeout'` handler. So a port that neither answers nor fails leaves its probe pending, and the whole loop waits. No bound on waiting is modelled or claimed.
- `Math.random()` and `Date.now()`: parameters. `Math.floor(Math.random() * n)` is computed over the reals, so floating-point rounding of the product is not modelled.
- The console output of `getPortsStatus`: only the per-port status line is modelled. The `console.error` lines are not.
- The outer `catch` of `getPortsStatus`: it is not modelled. Every per-port failure is already caught inside the loop, so the modelled method returns its ten lines once every probe has settled.
- `formatTime`: it depends on the local time zone and on `Date`. The system card carries the raw `lastUpdated` text instead.
- `ramPercentage` and `cpuAverage.toFixed(1)`: floating point.
- `ServerPanel.FormatUptime`: defined on non-negative whole seconds only. JavaScript's `%` and `Math.floor` on negative or fractional input are not modelled.
- CSS class strings: only the colour and icon they select are modelled. The JSX markup, React hooks and ReactPlayer playback are not.
- `VideoPlayer.Player.TogglePlay`: the handler reads `playing` from its render's closure. Events are taken one at a time, so a stale closure between two renders is not modelled.
- `client/src/pages/Dashboard.tsx` and `client/src/components/Header.tsx`: layout only, with no logic.
