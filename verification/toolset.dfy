/** A device of this model, not a part of the program: the four tool factories
    bound to one token, with a call that names a tool and carries its arguments.
    It exists to state the properties every tool shares. */
module Toolset {
  import opened Wrappers
  import opened Spotify
  import opened Tooling
  import ListPlaylists
  import SearchTracks
  import GetPlaylistTracks
  import ModifyPlaylist

  datatype ToolCall =
    | ListPlaylistsTool(list: ListPlaylists.Input)
    | SearchTracksTool(search: SearchTracks.Input)
    | GetPlaylistTracksTool(fetch: GetPlaylistTracks.Input)
    | ModifyPlaylistTool(mutation: ModifyPlaylist.Input)

  datatype ToolOutput =
    | Playlists(playlists: seq<ListPlaylists.Summary>)
    | Searched(found: SearchTracks.Output)
    | PlaylistTracks(page: GetPlaylistTracks.Output)
    | Modified(change: ModifyPlaylist.Output)

  function Lift<T>(r: Run<T>, wrap: T -> ToolOutput): Run<ToolOutput> {
    match r.result
    case Success(v) => Run(Success(wrap(v)), r.calls)
    case Failure(e) => Run(Failure(e), r.calls)
  }

  /** Runs the named tool with the token its factory was bound to. Whatever the
      tool: no usable token means no remote call, every call carries the token,
      and only `modifyPlaylist` ever changes playlist state. */
  function Dispatch(token: Option<string>, t: ToolCall, p: Platform): (r: Run<ToolOutput>)
    ensures !Truthy(token) ==> r.calls == [] && r.result == Failure(if Valid(t) then MissingToken else ValidationError)
    ensures !Valid(t) ==> r == Run(Failure(ValidationError), [])
    ensures Authorized(r.calls, token)
    ensures !t.ModifyPlaylistTool? ==> forall i :: 0 <= i < |r.calls| ==> !r.calls[i].IsMutation()
    ensures t.ModifyPlaylistTool? ==> |r.calls| <= 2 && forall i :: 0 <= i < |r.calls| ==> r.calls[i].IsMutation()
  {
    match t
    case ListPlaylistsTool(input) => Lift(ListPlaylists.Invoke(token, input, p), (v: seq<ListPlaylists.Summary>) => Playlists(v))
    case SearchTracksTool(input) => Lift(SearchTracks.Invoke(token, input, p), (v: SearchTracks.Output) => Searched(v))
    case GetPlaylistTracksTool(input) => Lift(GetPlaylistTracks.Invoke(token, input, p), (v: GetPlaylistTracks.Output) => PlaylistTracks(v))
    case ModifyPlaylistTool(input) => Lift(ModifyPlaylist.Invoke(token, input, p), (v: ModifyPlaylist.Output) => Modified(v))
  }

  /** Whether the tool's input schema accepts the arguments. */
  predicate Valid(t: ToolCall) {
    match t
    case ListPlaylistsTool(input) => ListPlaylists.Valid(input)
    case SearchTracksTool(input) => SearchTracks.Valid(input)
    case GetPlaylistTracksTool(input) => GetPlaylistTracks.Valid(input)
    case ModifyPlaylistTool(input) => ModifyPlaylist.Valid(input)
  }
}
