/** The `listPlaylists` tool: one page of the current user's playlists, each
    reduced to its id and name. */
module ListPlaylists {
  import opened Wrappers
  import opened Js
  import opened Spotify
  import opened Tooling

  datatype Input = Input(limit: Option<real>, offset: Option<real>)

  /** `{ id: p?.id, name: p?.name }`; `None` where the tool emits `undefined`. */
  datatype Summary = Summary(id: Option<string>, name: Option<string>)

  const DefaultLimit := 20
  const MaxLimit := 50

  predicate Valid(input: Input) {
    OptionalIntIn(input.limit, 1, MaxLimit) && OptionalIntAtLeast(input.offset, 0)
  }

  function Limit(input: Input): (n: int)
    requires OptionalIntIn(input.limit, 1, MaxLimit)
    ensures 1 <= n <= MaxLimit
    ensures input.limit.None? ==> n == DefaultLimit
    ensures input.limit.Some? ==> n as real == input.limit.value
  {
    IntOr(input.limit, DefaultLimit)
  }

  function Offset(input: Input): (n: int)
    requires OptionalIntAtLeast(input.offset, 0)
    ensures n >= 0
    ensures input.offset.None? ==> n == 0
    ensures input.offset.Some? ==> n as real == input.offset.value
  {
    IntOr(input.offset, 0)
  }

  /** `response.body?.items ?? []` */
  function ItemsOf(body: Maybe<PlaylistsPage>): seq<Maybe<PlaylistObject>> {
    if body.Defined? then Coalesce(body.value.items, []) else []
  }

  /** `(p) => ({ id: p?.id, name: p?.name })` */
  function Summarize(item: Maybe<PlaylistObject>): (s: Summary)
    ensures item.Defined? ==> s == Summary(Some(item.value.id), Some(item.value.name))
    ensures !item.Defined? ==> s.id.None? && s.name.None?
  {
    if item.Defined? then Summary(Some(item.value.id), Some(item.value.name)) else Summary(None, None)
  }

  /** `items.map(...)`: one summary per item, in order. */
  function SummarizeAll(items: seq<Maybe<PlaylistObject>>): (r: seq<Summary>)
    ensures |r| == |items|
    ensures forall i :: 0 <= i < |items| ==> r[i] == Summarize(items[i])
  {
    if items == [] then [] else [Summarize(items[0])] + SummarizeAll(items[1..])
  }

  /** `execute`: the token guard, one `getUserPlaylists` fetch, then the projection. */
  function Execute(token: Option<string>, input: Input, p: Platform): (r: Run<seq<Summary>>)
    requires Valid(input)
    ensures !Truthy(token) ==> r == Run(Failure(MissingToken), [])
    ensures Truthy(token) ==> r.calls == [GetUserPlaylistsCall(token.value, Limit(input), Offset(input))]
    ensures Truthy(token) && p.userPlaylists(r.calls[0]).Failure? ==>
              r.result == Failure(Upstream(p.userPlaylists(r.calls[0]).error))
    ensures Truthy(token) && p.userPlaylists(r.calls[0]).Success? ==>
              var items := ItemsOf(p.userPlaylists(r.calls[0]).value);
              && r.result.Success?
              && |r.result.value| == |items|
              && forall i :: 0 <= i < |items| ==>
                   r.result.value[i] == (if items[i].Defined? then Summary(Some(items[i].value.id), Some(items[i].value.name))
                                         else Summary(None, None))
  {
    if !Truthy(token) then Run(Failure(MissingToken), [])
    else
      var call := GetUserPlaylistsCall(token.value, Limit(input), Offset(input));
      var reply := p.userPlaylists(call);
      if reply.Failure? then Run(Failure(Upstream(reply.error)), [call])
      else Run(Success(SummarizeAll(ItemsOf(reply.value))), [call])
  }

  /** The tool as the language model calls it: schema validation, then `execute`. */
  function Invoke(token: Option<string>, input: Input, p: Platform): (r: Run<seq<Summary>>)
    ensures !Valid(input) ==> r == Run(Failure(ValidationError), [])
    ensures !Truthy(token) ==> r.calls == [] && r.result.Failure?
    ensures Authorized(r.calls, token)
    ensures |r.calls| <= 1
    ensures forall i :: 0 <= i < |r.calls| ==> r.calls[i].GetUserPlaylistsCall? && !r.calls[i].IsMutation()
    ensures r.calls != [] ==> Valid(input) && Truthy(token)
    ensures Valid(input) ==> r.result != Failure(ValidationError)
    ensures Valid(input) && Truthy(token) ==> r.calls == [GetUserPlaylistsCall(token.value, Limit(input), Offset(input))]
  {
    if !Valid(input) then Run(Failure(ValidationError), []) else Execute(token, input, p)
  }

  /** No body, or a body without `items`, lists no playlists. */
  lemma MissingItemsListNothing(token: Option<string>, input: Input, p: Platform)
    requires Valid(input) && Truthy(token)
    requires var reply := p.userPlaylists(GetUserPlaylistsCall(token.value, Limit(input), Offset(input)));
             reply.Success? && (!reply.value.Defined? || !reply.value.value.items.Defined?)
    ensures Invoke(token, input, p).result == Success([])
  {
  }

  /** With no arguments the fetch asks for the first 20 playlists. */
  lemma DefaultPage(token: Option<string>, p: Platform)
    requires Truthy(token)
    ensures Invoke(token, Input(None, None), p).calls == [GetUserPlaylistsCall(token.value, 20, 0)]
  {
  }
}
