/** The tool finder's request/response mapping and its card layout: `fetch_tools`,
    the search trigger, the three-column round-robin placement of cards and the
    placeholder grid shown when there are no results. The HTTP request itself is
    outside the model: its outcome is a parameter. */
module Finder {
  import opened Wrappers

  /** A tool record as the backend returns it; every field may be absent. */
  datatype Tool = Tool(name: Option<string>, year: Option<string>, strengths: Option<string>, website: Option<string>)

  /** The decoded body of a response: a JSON object, whose `tools` field may be
      absent, or something `resp.json().get` raises on (not JSON, not an object). */
  datatype Body = JsonObject(tools: Option<seq<Tool>>) | Malformed(reason: string)

  /** What the POST to the backend produced: a response with a status code, or an
      exception from the transport (refused connection, the 20-second timeout, ...). */
  datatype BackendReply = HttpResponse(status: int, body: Body) | TransportError(reason: string)

  /** The list `fetch_tools` returns, and the error it displays, if any. */
  datatype Fetched = Fetched(tools: seq<Tool>, error: Option<string>)

  const BackendErrorText: string := "Backend error. Please try again."
  const ConnectErrorPrefix: string := "Error connecting to backend: "

  /** `fetch_tools`: the `tools` field of a 200 response (empty when absent); on any
      other status, or on an exception, an error message and the empty list. */
  function FetchTools(reply: BackendReply): (r: Fetched)
    ensures r.error.None? <==> reply.HttpResponse? && reply.status == 200 && reply.body.JsonObject?
    ensures r.error.None? ==> r.tools == reply.body.tools.GetOr([])
    ensures r.error.Some? ==> r.tools == []
    ensures r.tools != [] ==> reply == HttpResponse(200, JsonObject(Some(r.tools)))
    ensures reply.HttpResponse? && reply.status != 200 ==> r.error == Some(BackendErrorText)
    ensures reply.TransportError? ==> r.error == Some(ConnectErrorPrefix + reply.reason)
    ensures reply.HttpResponse? && reply.status == 200 && reply.body.Malformed? ==>
              r.error == Some(ConnectErrorPrefix + reply.body.reason)
  {
    match reply
    case TransportError(reason) => Fetched([], Some(ConnectErrorPrefix + reason))
    case HttpResponse(status, body) =>
      if status == 200 then
        match body
        case JsonObject(tools) => Fetched(tools.GetOr([]), None)
        case Malformed(reason) => Fetched([], Some(ConnectErrorPrefix + reason))
      else
        Fetched([], Some(BackendErrorText))
  }

  /** The search trigger: the button's flag, forced on by a non-empty query (the
      Enter-key emulation), and then a fetch only for a non-empty query; so the
      button never matters. */
  function ShouldFetch(query: string, clicked: bool): (fetch: bool)
    ensures fetch <==> query != ""
  {
    var searchClicked := if query != "" && !clicked then true else clicked;
    searchClicked && query != ""
  }

  /** What a grid cell shows: a tool card or a "waiting for a search" placeholder. */
  datatype Cell = Card(tool: Tool) | Placeholder

  /** The default size of the placeholder grid. */
  const GhostCells: nat := 6

  /** Round-robin placement into the three columns of `st.columns(3)`: item i goes
      to column i % 3, below the items placed there before it. */
  method Distribute<T>(items: seq<T>) returns (cols: seq<seq<T>>)
    ensures |cols| == 3
    ensures forall c :: 0 <= c < 3 ==> |cols[c]| == (|items| + 2 - c) / 3
    ensures forall i :: 0 <= i < |items| ==> i / 3 < |cols[i % 3]| && cols[i % 3][i / 3] == items[i]
    ensures forall c, j :: 0 <= c < 3 && 0 <= j < |cols[c]| ==> cols[c][j] == items[3 * j + c]
  {
    cols := [[], [], []];
    for idx := 0 to |items|
      invariant |cols| == 3
      invariant forall c :: 0 <= c < 3 ==> |cols[c]| == (idx + 2 - c) / 3
      invariant forall c, j :: 0 <= c < 3 && 0 <= j < |cols[c]| ==> cols[c][j] == items[3 * j + c]
    {
      var c := idx % 3;
      cols := cols[c := cols[c] + [items[idx]]];
    }
    forall i | 0 <= i < |items|
      ensures i / 3 < |cols[i % 3]| && cols[i % 3][i / 3] == items[i]
    {
      assert 3 * (i / 3) + i % 3 == i;
    }
  }

  /** `ghost_grid(n)`: n placeholders laid out round-robin in three columns. */
  method GhostGrid(n: nat) returns (cols: seq<seq<Cell>>)
    ensures |cols| == 3
    ensures forall c :: 0 <= c < 3 ==> |cols[c]| == (n + 2 - c) / 3
    ensures forall c, j :: 0 <= c < 3 && 0 <= j < |cols[c]| ==> cols[c][j] == Placeholder
  {
    cols := Distribute(seq(n, _ => Placeholder));
  }

  /** The cards section of the tool finder: the results as cards in round-robin
      order, or, when there are none, the default placeholder grid (two per column). */
  method RenderResults(results: seq<Tool>) returns (cols: seq<seq<Cell>>)
    ensures |cols| == 3
    ensures results == [] ==> forall c :: 0 <= c < 3 ==> cols[c] == [Placeholder, Placeholder]
    ensures results != [] ==> forall c :: 0 <= c < 3 ==> |cols[c]| == (|results| + 2 - c) / 3
    ensures results != [] ==> forall i :: 0 <= i < |results| ==>
              i / 3 < |cols[i % 3]| && cols[i % 3][i / 3] == Card(results[i])
    ensures results != [] ==> forall c, j :: 0 <= c < 3 && 0 <= j < |cols[c]| ==> cols[c][j].Card?
  {
    if results != [] {
      cols := Distribute(seq(|results|, i requires 0 <= i < |results| => Card(results[i])));
    } else {
      cols := GhostGrid(GhostCells);
      assert forall c :: 0 <= c < 3 ==> |cols[c]| == 2;
    }
  }
}
