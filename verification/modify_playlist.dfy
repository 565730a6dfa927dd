/** The `modifyPlaylist` tool: removes and/or adds tracks on one playlist, with
    at most one batched call per direction and the removal always first. */
module ModifyPlaylist {
  import opened Wrappers
  import opened Js
  import opened Spotify
  import opened Tooling

  /** Arguments as parsed; both lists are optional and default to `[]`. */
  datatype Input = Input(playlistId: string, addTrackIds: Option<seq<string>>, removeTrackIds: Option<seq<string>>)

  /** The result record; `added`/`removed` are absent unless set. */
  datatype Output = Output(playlistId: string, added: Option<nat>, removed: Option<nat>)

  const UriPrefix := "spotify:track:"
  const LinkPrefix := "https://open.spotify.com/track/"

  function AddIds(input: Input): seq<string> {
    input.addTrackIds.GetOr([])
  }

  function RemoveIds(input: Input): seq<string> {
    input.removeTrackIds.GetOr([])
  }

  /** `z.array(z.string().min(1)).optional()` */
  predicate IdsOk(ids: Option<seq<string>>) {
    ids.None? || forall i :: 0 <= i < |ids.value| ==> ids.value[i] != ""
  }

  /** The input schema, including its `refine`: at least one list is non-empty. */
  predicate Valid(input: Input) {
    && input.playlistId != ""
    && IdsOk(input.addTrackIds)
    && IdsOk(input.removeTrackIds)
    && (|AddIds(input)| > 0 || |RemoveIds(input)| > 0)
  }

  /** Whether a string already has one of the two forms `toUri` leaves alone. */
  predicate IsTrackRef(s: string) {
    StartsWith(s, UriPrefix) || StartsWith(s, LinkPrefix)
  }

  /** `toUri`: total; a recognised track URI or web link passes through, anything
      else is taken as a bare ID. A web link is not reduced to its ID. */
  function ToUri(id: string): (uri: string)
    ensures IsTrackRef(uri)
    ensures uri == id <==> IsTrackRef(id)
    ensures uri == id || uri == UriPrefix + id
  {
    if IsTrackRef(id) then id else UriPrefix + id
  }

  /** `ids.map(toUri)` */
  function ToUris(ids: seq<string>): (uris: seq<string>)
    ensures |uris| == |ids|
    ensures forall i :: 0 <= i < |ids| ==> uris[i] == ToUri(ids[i])
  {
    if ids == [] then [] else [ToUri(ids[0])] + ToUris(ids[1..])
  }

  /** The removal call for a non-empty `removeTrackIds`. */
  function RemovalCall(token: string, input: Input): RemoteCall {
    RemoveTracksCall(token, input.playlistId, ToUris(RemoveIds(input)))
  }

  /** The addition call for a non-empty `addTrackIds`. */
  function AdditionCall(token: string, input: Input): RemoteCall {
    AddTracksCall(token, input.playlistId, ToUris(AddIds(input)))
  }

  /** Whether the removal step let execution continue: nothing to remove, or the call succeeded. */
  predicate RemovalPassed(token: string, input: Input, p: Platform) {
    |RemoveIds(input)| == 0 || p.mutate(RemovalCall(token, input)).Success?
  }

  function Count(ids: seq<string>): Option<nat> {
    if |ids| > 0 then Some(|ids|) else None
  }

  /** `execute`: the token guard, then removal, then addition. A rejected call
      propagates and nothing after it runs. */
  function Execute(token: Option<string>, input: Input, p: Platform): (r: Run<Output>)
    ensures !Truthy(token) ==> r == Run(Failure(MissingToken), [])
    ensures |r.calls| <= 2
    ensures Authorized(r.calls, token)
    ensures forall i :: 0 <= i < |r.calls| ==> r.calls[i].IsMutation() && r.calls[i].playlistId == input.playlistId
    // one removal, carrying every removal ID as a URI in input order, issued first
    ensures Truthy(token) && |RemoveIds(input)| > 0 ==> |r.calls| >= 1 && r.calls[0] == RemovalCall(token.value, input)
    ensures forall i :: 0 <= i < |r.calls| && r.calls[i].RemoveTracksCall? ==> i == 0 && |RemoveIds(input)| > 0
    // one addition, only once the removal has gone through, and always last
    ensures (exists i :: 0 <= i < |r.calls| && r.calls[i].AddTracksCall?)
              <==> Truthy(token) && |AddIds(input)| > 0 && RemovalPassed(token.value, input, p)
    ensures forall i :: 0 <= i < |r.calls| && r.calls[i].AddTracksCall? ==>
              i == |r.calls| - 1 && r.calls[i] == AdditionCall(token.value, input)
    // success exactly when every call made succeeded; a failure is the last call's rejection
    ensures r.result.Success? <==> Truthy(token) && forall i :: 0 <= i < |r.calls| ==> p.mutate(r.calls[i]).Success?
    ensures Truthy(token) && r.result.Failure? ==>
              |r.calls| > 0 && p.mutate(r.calls[|r.calls| - 1]).Failure?
              && r.result.error == Upstream(p.mutate(r.calls[|r.calls| - 1]).error)
    // the record echoes the playlist and counts the submitted IDs, not the platform's effect
    ensures r.result.Success? ==> r.result.value == Output(input.playlistId, Count(AddIds(input)), Count(RemoveIds(input)))
  {
    if !Truthy(token) then Run(Failure(MissingToken), [])
    else
      var tok := token.value;
      var removal := if |RemoveIds(input)| > 0 then [RemovalCall(tok, input)] else [];
      if !RemovalPassed(tok, input, p) then
        Run(Failure(Upstream(p.mutate(RemovalCall(tok, input)).error)), removal)
      else
        var addition := if |AddIds(input)| > 0 then [AdditionCall(tok, input)] else [];
        var calls := removal + addition;
        assert |AddIds(input)| > 0 ==> calls[|removal|] == AdditionCall(tok, input);
        if |AddIds(input)| > 0 && p.mutate(AdditionCall(tok, input)).Failure? then
          Run(Failure(Upstream(p.mutate(AdditionCall(tok, input)).error)), calls)
        else
          Run(Success(Output(input.playlistId, Count(AddIds(input)), Count(RemoveIds(input)))), calls)
  }

  /** The calls `execute` makes when every one succeeds: the removal, then the
      addition, each only for a non-empty list. */
  function Plan(token: string, input: Input): seq<RemoteCall> {
    (if |RemoveIds(input)| > 0 then [RemovalCall(token, input)] else [])
    + (if |AddIds(input)| > 0 then [AdditionCall(token, input)] else [])
  }

  /** The log is always a prefix of the plan, and the whole plan when the platform accepts it. */
  lemma CallsFollowPlan(token: Option<string>, input: Input, p: Platform)
    requires Truthy(token)
    ensures Execute(token, input, p).calls <= Plan(token.value, input)
    ensures (forall i :: 0 <= i < |Plan(token.value, input)| ==> p.mutate(Plan(token.value, input)[i]).Success?)
            <==> Execute(token, input, p) == Run(Success(Output(input.playlistId, Count(AddIds(input)), Count(RemoveIds(input)))), Plan(token.value, input))
  {
  }

  /** The tool as the language model calls it: schema validation, then `execute`. */
  function Invoke(token: Option<string>, input: Input, p: Platform): (r: Run<Output>)
    ensures !Valid(input) ==> r == Run(Failure(ValidationError), [])
    ensures !Truthy(token) ==> r.calls == [] && r.result.Failure?
    ensures Valid(input) && Truthy(token) ==> |r.calls| >= 1
    ensures Authorized(r.calls, token)
    ensures forall i :: 0 <= i < |r.calls| ==> r.calls[i].IsMutation()
    ensures r.result.Success? ==> Valid(input) && r.result.value.playlistId == input.playlistId
    ensures Valid(input) ==> r.result != Failure(ValidationError)
    ensures Valid(input) && Truthy(token) ==> r.calls <= Plan(token.value, input)
  {
    if !Valid(input) then Run(Failure(ValidationError), []) else Execute(token, input, p)
  }

  /** Normalising twice is normalising once. */
  lemma ToUriIdempotent(id: string)
    ensures ToUri(ToUri(id)) == ToUri(id)
  {
  }

  /** A bare ID and its `spotify:track:` form normalise to the same URI. */
  lemma ToUriBareIdAndUriAgree(id: string)
    requires !IsTrackRef(id)
    ensures ToUri(UriPrefix + id) == ToUri(id)
  {
  }

  /** A web link with a query string is submitted as it is, not reduced to the ID. */
  lemma ToUriKeepsWebLinks()
    ensures ToUri("https://open.spotify.com/track/4uLU6hMCjMI75M1A2tKUQC?si=1")
         == "https://open.spotify.com/track/4uLU6hMCjMI75M1A2tKUQC?si=1"
  {
  }

  /** Mapping `toUri` over a list twice is mapping it once. */
  lemma ToUrisIdempotent(ids: seq<string>)
    ensures ToUris(ToUris(ids)) == ToUris(ids)
  {
  }

  /** An ID without a colon (every 22-character base62 track ID) carries neither
      prefix, so it gets the `spotify:track:` prefix. */
  lemma BareIdUri(id: string)
    requires ':' !in id
    ensures ToUri(id) == UriPrefix + id
  {
    if |id| >= |UriPrefix| {
      assert id[..|UriPrefix|][7] == id[7] != UriPrefix[7];
    }
    if |id| >= |LinkPrefix| {
      assert id[..|LinkPrefix|][5] == id[5] != LinkPrefix[5];
    }
  }

  /** Both lists empty or absent: rejected before `execute`, so no remote call. */
  lemma EmptyMutationRejected(token: Option<string>, input: Input, p: Platform)
    requires AddIds(input) == [] && RemoveIds(input) == []
    ensures Invoke(token, input, p) == Run(Failure(ValidationError), [])
  {
  }

  /** Removing T1 and T2 from P1: one removal call with both URIs, `{playlistId, removed: 2}`. */
  lemma RemoveOnlyScenario(p: Platform)
    requires forall c :: p.mutate(c).Success?
    ensures Invoke(Some("tok"), Input("P1", None, Some(["T1", "T2"])), p)
         == Run(Success(Output("P1", None, Some(2))),
                [RemoveTracksCall("tok", "P1", ["spotify:track:T1", "spotify:track:T2"])])
  {
    BareIdUri("T1");
    assert UriPrefix + "T1" == "spotify:track:T1";
    BareIdUri("T2");
    assert UriPrefix + "T2" == "spotify:track:T2";
    assert ToUris(["T1", "T2"]) == ["spotify:track:T1", "spotify:track:T2"];
  }

  /** Removing T1 and adding T3: the removal call, then the addition call; both counts set. */
  lemma RemoveThenAddScenario(p: Platform)
    requires forall c :: p.mutate(c).Success?
    ensures Invoke(Some("tok"), Input("P1", Some(["T3"]), Some(["T1"])), p)
         == Run(Success(Output("P1", Some(1), Some(1))),
                [RemoveTracksCall("tok", "P1", ["spotify:track:T1"]),
                 AddTracksCall("tok", "P1", ["spotify:track:T3"])])
  {
    BareIdUri("T1");
    assert UriPrefix + "T1" == "spotify:track:T1";
    BareIdUri("T3");
    assert UriPrefix + "T3" == "spotify:track:T3";
    assert ToUris(["T1"]) == ["spotify:track:T1"];
    assert ToUris(["T3"]) == ["spotify:track:T3"];
  }
}
