/** The `searchTracks` tool: one query, or several queries searched side by side
    with their results grouped by query in input order. */
module SearchTracks {
  import opened Wrappers
  import opened Js
  import opened Spotify
  import opened Tooling
  import opened Tracks

  datatype Input = Input(
    query: Option<string>, queries: Option<seq<string>>,
    limit: Option<real>, offset: Option<real>, market: Option<string>)

  datatype QueryResults = QueryResults(query: string, results: seq<Track>)

  /** `{ resultsByQuery }` in the grouped mode, a flat track list otherwise. */
  datatype Output = ByQuery(resultsByQuery: seq<QueryResults>) | Flat(tracks: seq<Track>)

  const DefaultLimit := 5
  const MaxLimit := 50

  predicate IsAsciiLetter(c: char) {
    'A' <= c <= 'Z' || 'a' <= c <= 'z'
  }

  /** `z.string().regex(/^[A-Za-z]{2}$/).optional()` */
  predicate MarketOk(market: Option<string>) {
    market.None? || (|market.value| == 2 && IsAsciiLetter(market.value[0]) && IsAsciiLetter(market.value[1]))
  }

  /** `query: z.string().min(1).optional()` */
  predicate QueryOk(query: Option<string>) {
    query.None? || query.value != ""
  }

  /** `queries: z.array(z.string().min(1)).min(1).optional()` */
  predicate QueriesOk(queries: Option<seq<string>>) {
    queries.None? || (|queries.value| >= 1 && forall i :: 0 <= i < |queries.value| ==> queries.value[i] != "")
  }

  predicate PagingOk(input: Input) {
    OptionalIntIn(input.limit, 1, MaxLimit) && OptionalIntAtLeast(input.offset, 0)
  }

  /** The `refine`: a truthy `query`, or a non-empty `queries` array. */
  predicate HasQuery(input: Input) {
    (input.query.Some? && input.query.value != "") || (input.queries.Some? && |input.queries.value| > 0)
  }

  predicate Valid(input: Input) {
    QueryOk(input.query) && QueriesOk(input.queries) && PagingOk(input) && MarketOk(input.market) && HasQuery(input)
  }

  /** `queries && queries.length > 0`: the grouped mode, chosen whether or not `query` is also given. */
  predicate Grouped(input: Input) {
    input.queries.Some? && |input.queries.value| > 0
  }

  function Limit(input: Input): (n: int)
    requires OptionalIntIn(input.limit, 1, MaxLimit)
    ensures 1 <= n <= MaxLimit
    ensures input.limit.None? ==> n == DefaultLimit
    ensures input.limit.Some? ==> n as real == input.limit.value
  {
    IntOr(input.limit, DefaultLimit)
  }

  function Offset(input: Input): (n: int)
    requires OptionalIntAtLeast(input.offset, 0)
    ensures n >= 0
    ensures input.offset.None? ==> n == 0
    ensures input.offset.Some? ==> n as real == input.offset.value
  {
    IntOr(input.offset, 0)
  }

  /** `spotifyApi.searchTracks(q, { limit, offset, market })` */
  function Request(token: string, q: string, input: Input): RemoteCall
    requires PagingOk(input)
  {
    SearchTracksCall(token, q, Limit(input), Offset(input), input.market)
  }

  /** `resp.body.tracks?.items ?? []` */
  function ItemsOf(body: SearchBody): seq<TrackObject> {
    if body.tracks.Defined? then Coalesce(body.tracks.value.items, []) else []
  }

  /** `queries.map(q => searchTracks(q, ...))`: every call is issued before any answer is awaited. */
  function Requests(token: string, qs: seq<string>, input: Input): (calls: seq<RemoteCall>)
    requires PagingOk(input)
    ensures |calls| == |qs|
    ensures forall i :: 0 <= i < |qs| ==> calls[i] == Request(token, qs[i], input)
  {
    if qs == [] then [] else [Request(token, qs[0], input)] + Requests(token, qs[1..], input)
  }

  /** `Promise.all` over the searches, then `responses.map((resp, idx) => ...)`:
      entry i belongs to query i; one rejection rejects the whole group. */
  function Gather(token: string, qs: seq<string>, input: Input, p: Platform): (r: Result<seq<QueryResults>, RemoteError>)
    requires PagingOk(input)
    ensures r.Success? <==> forall i :: 0 <= i < |qs| ==> p.search(Request(token, qs[i], input)).Success?
    ensures r.Success? ==> |r.value| == |qs|
    ensures r.Success? ==> forall i :: 0 <= i < |qs| ==>
              r.value[i] == QueryResults(qs[i], MapTracks(ItemsOf(p.search(Request(token, qs[i], input)).value)))
    ensures r.Failure? ==> exists i :: 0 <= i < |qs| && p.search(Request(token, qs[i], input)) == Failure(r.error)
  {
    if qs == [] then Success([])
    else
      var reply := p.search(Request(token, qs[0], input));
      if reply.Failure? then Failure(reply.error)
      else
        var rest := Gather(token, qs[1..], input, p);
        if rest.Failure? then
          Failure(rest.error)
        else
          var groups := [QueryResults(qs[0], MapTracks(ItemsOf(reply.value)))] + rest.value;
          assert forall i :: 1 <= i < |qs| ==> qs[1..][i - 1] == qs[i];
          Success(groups)
  }

  /** `execute`: the token guard, then either the grouped searches or the single one. */
  function Execute(token: Option<string>, input: Input, p: Platform): (r: Run<Output>)
    requires Valid(input)
    ensures !Truthy(token) ==> r == Run(Failure(MissingToken), [])
    ensures Authorized(r.calls, token)
    ensures forall i :: 0 <= i < |r.calls| ==> r.calls[i].SearchTracksCall?
    // success exactly when every search succeeded
    ensures r.result.Success? <==> Truthy(token) && forall i :: 0 <= i < |r.calls| ==> p.search(r.calls[i]).Success?
    // grouped: one search per query, in order; entry i of the result belongs to query i
    ensures Truthy(token) && Grouped(input) ==>
              |r.calls| == |input.queries.value|
              && forall i :: 0 <= i < |r.calls| ==> r.calls[i] == Request(token.value, input.queries.value[i], input)
    ensures Truthy(token) && Grouped(input) && r.result.Success? ==>
              r.result.value.ByQuery?
              && |r.result.value.resultsByQuery| == |input.queries.value|
              && forall i :: 0 <= i < |input.queries.value| ==>
                   && r.result.value.resultsByQuery[i].query == input.queries.value[i]
                   && r.result.value.resultsByQuery[i].results == MapTracks(ItemsOf(p.search(r.calls[i]).value))
    // single: exactly one search for `query`, answered by a flat list
    ensures Truthy(token) && !Grouped(input) ==>
              r.calls == [Request(token.value, input.query.value, input)]
              && (r.result.Success? ==> r.result.value == Flat(MapTracks(ItemsOf(p.search(r.calls[0]).value))))
    // a failure is one search's rejection
    ensures Truthy(token) && r.result.Failure? ==>
              exists i :: 0 <= i < |r.calls| && p.search(r.calls[i]).Failure? && r.result.error == Upstream(p.search(r.calls[i]).error)
  {
    if !Truthy(token) then Run(Failure(MissingToken), [])
    else
      var tok := token.value;
      if Grouped(input) then
        var qs := input.queries.value;
        var calls := Requests(tok, qs, input);
        match Gather(tok, qs, input, p)
        case Success(groups) => Run(Success(ByQuery(groups)), calls)
        case Failure(e) => Run(Failure(Upstream(e)), calls)
      else
        var call := Request(tok, input.query.value, input);
        var reply := p.search(call);
        if reply.Failure? then Run(Failure(Upstream(reply.error)), [call])
        else Run(Success(Flat(MapTracks(ItemsOf(reply.value)))), [call])
  }

  /** The tool as the language model calls it: schema validation, then `execute`. */
  function Invoke(token: Option<string>, input: Input, p: Platform): (r: Run<Output>)
    ensures !Valid(input) ==> r == Run(Failure(ValidationError), [])
    ensures !Truthy(token) ==> r.calls == [] && r.result.Failure?
    ensures Authorized(r.calls, token)
    ensures forall i :: 0 <= i < |r.calls| ==> !r.calls[i].IsMutation()
    ensures r.calls != [] ==> Valid(input) && Truthy(token)
    ensures Valid(input) ==> r.result != Failure(ValidationError)
    ensures Valid(input) && Truthy(token) ==> |r.calls| >= 1
    ensures Valid(input) && Truthy(token) ==>
              r.calls == (if Grouped(input) then Requests(token.value, input.queries.value, input)
                          else [Request(token.value, input.query.value, input)])
  {
    if !Valid(input) then Run(Failure(ValidationError), []) else Execute(token, input, p)
  }

  /** With both `query` and `queries`, the grouped mode wins: `query` is never searched on its own
      unless it also appears in `queries`, and the groups follow `queries`. */
  lemma QueriesTakePrecedence(token: Option<string>, input: Input, p: Platform)
    requires Valid(input) && Truthy(token)
    requires input.query.Some? && input.queries.Some? && |input.queries.value| > 0
    ensures var r := Invoke(token, input, p);
            && (forall i :: 0 <= i < |r.calls| ==> r.calls[i].query in input.queries.value)
            && (r.result.Success? ==>
                  r.result.value.ByQuery? && |r.result.value.resultsByQuery| == |input.queries.value|)
  {
  }

  /** An empty `queries` array is rejected even when `query` is given. */
  lemma EmptyQueriesRejected(token: Option<string>, input: Input, p: Platform)
    requires input.queries == Some([])
    ensures Invoke(token, input, p) == Run(Failure(ValidationError), [])
  {
  }

  /** Whether a search body lacks `tracks` or `tracks.items`. */
  predicate NoItems(body: SearchBody) {
    !body.tracks.Defined? || !body.tracks.value.items.Defined?
  }

  /** Missing `tracks.items` yields no tracks, in both modes. */
  lemma MissingItemsGiveNoTracks(token: Option<string>, input: Input, p: Platform)
    requires Valid(input) && Truthy(token)
    requires forall c :: p.search(c).Success? && NoItems(p.search(c).value)
    ensures var r := Invoke(token, input, p);
            && r.result.Success?
            && (Grouped(input) ==> forall i :: 0 <= i < |r.result.value.resultsByQuery| ==> r.result.value.resultsByQuery[i].results == [])
            && (!Grouped(input) ==> r.result.value == Flat([]))
  {
  }

  /** Two grouped queries give two groups, in the order of the queries. */
  lemma TwoQueriesScenario(p: Platform)
    requires forall c :: p.search(c).Success?
    ensures var r := Invoke(Some("tok"), Input(None, Some(["Yellow Coldplay", "Imagine Lennon"]), None, None, None), p);
            && r.result.Success? && r.result.value.ByQuery?
            && |r.result.value.resultsByQuery| == 2
            && r.result.value.resultsByQuery[0].query == "Yellow Coldplay"
            && r.result.value.resultsByQuery[1].query == "Imagine Lennon"
  {
  }
}
