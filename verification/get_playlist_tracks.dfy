/** The `getPlaylistTracks` tool: one page of a playlist's entries, each shaped
    as a track plus who added it and when. */
module GetPlaylistTracks {
  import opened Wrappers
  import opened Js
  import opened Spotify
  import opened Tooling
  import opened Tracks

  datatype Input = Input(playlistId: string, limit: Option<real>, offset: Option<real>)

  /** One shaped entry; `addedBy` is `None` where the tool emits `undefined`. */
  datatype Item = Item(track: Track, addedAt: string, addedBy: Option<string>)

  datatype Output = Output(playlistId: string, total: int, tracks: seq<Item>)

  const DefaultLimit := 20
  const MaxLimit := 100

  predicate Valid(input: Input) {
    && input.playlistId != ""
    && OptionalIntIn(input.limit, 1, MaxLimit)
    && OptionalIntAtLeast(input.offset, 0)
  }

  function Limit(input: Input): (n: int)
    requires OptionalIntIn(input.limit, 1, MaxLimit)
    ensures 1 <= n <= MaxLimit
    ensures input.limit.None? ==> n == DefaultLimit
    ensures input.limit.Some? ==> n as real == input.limit.value
  {
    IntOr(input.limit, DefaultLimit)
  }

  function Offset(input: Input): (n: int)
    requires OptionalIntAtLeast(input.offset, 0)
    ensures n >= 0
    ensures input.offset.None? ==> n == 0
    ensures input.offset.Some? ==> n as real == input.offset.value
  {
    IntOr(input.offset, 0)
  }

  /** `spotifyApi.getPlaylistTracks(playlistId, { limit, offset })` */
  function Request(token: string, input: Input): RemoteCall
    requires Valid(input)
  {
    GetPlaylistTracksCall(token, input.playlistId, Limit(input), Offset(input))
  }

  /** `response.body?.items ?? []` */
  function ItemsOf(body: Maybe<PlaylistTracksPage>): seq<PlaylistTrackObject> {
    if body.Defined? then Coalesce(body.value.items, []) else []
  }

  /** `response.body?.total ?? 0` */
  function TotalOf(body: Maybe<PlaylistTracksPage>): int {
    if body.Defined? then Coalesce(body.value.total, 0) else 0
  }

  /** The tool's `mapTrack`: reading `track.id` throws when the entry's track is null. */
  function MapItem(entry: PlaylistTrackObject): (r: Result<Item, ToolError>)
    ensures r.Success? <==> entry.track.Defined?
    ensures r.Failure? ==> r.error == TypeError
    ensures r.Success? ==> r.value.track == MapTrack(entry.track.value) && r.value.addedAt == entry.addedAt
    ensures r.Success? ==> (r.value.addedBy.Some? <==> entry.addedBy.Defined?)
    ensures r.Success? && entry.addedBy.Defined? ==> r.value.addedBy == Some(entry.addedBy.value.id)
  {
    if !entry.track.Defined? then Failure(TypeError)
    else
      var addedBy := if entry.addedBy.Defined? then Some(entry.addedBy.value.id) else None;
      Success(Item(MapTrack(entry.track.value), entry.addedAt, addedBy))
  }

  /** `items.map(mapTrack)`: all entries in order, or the first throw. */
  function MapItems(entries: seq<PlaylistTrackObject>): (r: Result<seq<Item>, ToolError>)
    ensures r.Success? <==> forall i :: 0 <= i < |entries| ==> entries[i].track.Defined?
    ensures r.Failure? ==> r.error == TypeError
    ensures r.Success? ==> |r.value| == |entries|
    ensures r.Success? ==> forall i :: 0 <= i < |entries| ==> MapItem(entries[i]) == Success(r.value[i])
  {
    if entries == [] then Success([])
    else
      match MapItem(entries[0])
      case Failure(e) => Failure(e)
      case Success(first) =>
        var rest := MapItems(entries[1..]);
        if rest.Failure? then Failure(rest.error)
        else
          assert forall i :: 1 <= i < |entries| ==> entries[1..][i - 1] == entries[i];
          Success([first] + rest.value)
  }

  /** `execute`: the token guard, one fetch, then the `{ playlistId, total, tracks }` record. */
  function Execute(token: Option<string>, input: Input, p: Platform): (r: Run<Output>)
    requires Valid(input)
    ensures !Truthy(token) ==> r == Run(Failure(MissingToken), [])
    ensures Truthy(token) ==> r.calls == [GetPlaylistTracksCall(token.value, input.playlistId, Limit(input), Offset(input))]
    ensures r.result.Success? ==> r.result.value.playlistId == input.playlistId
    ensures Truthy(token) && p.playlistTracks(r.calls[0]).Failure? ==>
              r.result == Failure(Upstream(p.playlistTracks(r.calls[0]).error))
    ensures Truthy(token) && p.playlistTracks(r.calls[0]).Success? ==>
              var body := p.playlistTracks(r.calls[0]).value;
              && (r.result.Success? <==> forall i :: 0 <= i < |ItemsOf(body)| ==> ItemsOf(body)[i].track.Defined?)
              && (r.result.Failure? ==> r.result.error == TypeError)
              && (r.result.Success? ==>
                    && r.result.value.total == TotalOf(body)
                    && |r.result.value.tracks| == |ItemsOf(body)|
                    && forall i :: 0 <= i < |ItemsOf(body)| ==> MapItem(ItemsOf(body)[i]) == Success(r.result.value.tracks[i]))
  {
    if !Truthy(token) then Run(Failure(MissingToken), [])
    else
      var call := Request(token.value, input);
      var reply := p.playlistTracks(call);
      if reply.Failure? then Run(Failure(Upstream(reply.error)), [call])
      else
        match MapItems(ItemsOf(reply.value))
        case Success(tracks) => Run(Success(Output(input.playlistId, TotalOf(reply.value), tracks)), [call])
        case Failure(e) => Run(Failure(e), [call])
  }

  /** The tool as the language model calls it: schema validation, then `execute`. */
  function Invoke(token: Option<string>, input: Input, p: Platform): (r: Run<Output>)
    ensures !Valid(input) ==> r == Run(Failure(ValidationError), [])
    ensures !Truthy(token) ==> r.calls == [] && r.result.Failure?
    ensures Authorized(r.calls, token)
    ensures |r.calls| <= 1
    ensures forall i :: 0 <= i < |r.calls| ==> r.calls[i].GetPlaylistTracksCall? && !r.calls[i].IsMutation()
    ensures r.calls != [] ==> Valid(input) && Truthy(token)
    ensures Valid(input) ==> r.result != Failure(ValidationError)
    ensures Valid(input) && Truthy(token) ==> r.calls == [Request(token.value, input)]
  {
    if !Valid(input) then Run(Failure(ValidationError), []) else Execute(token, input, p)
  }

  /** A body without `total` reports 0; one without `items` (or no body) reports no tracks. */
  lemma MissingFieldsDefault(token: Option<string>, input: Input, p: Platform)
    requires Valid(input) && Truthy(token)
    requires var reply := p.playlistTracks(Request(token.value, input));
             reply.Success? && (!reply.value.Defined? || (!reply.value.value.items.Defined? && !reply.value.value.total.Defined?))
    ensures Invoke(token, input, p).result == Success(Output(input.playlistId, 0, []))
  {
  }

  /** One entry whose track is null makes the whole call throw, after the fetch. */
  lemma NullTrackThrows(token: Option<string>, input: Input, p: Platform, k: nat)
    requires Valid(input) && Truthy(token)
    requires var reply := p.playlistTracks(Request(token.value, input));
             reply.Success? && k < |ItemsOf(reply.value)| && !ItemsOf(reply.value)[k].track.Defined?
    ensures Invoke(token, input, p) == Run(Failure(TypeError), [Request(token.value, input)])
  {
  }
}
