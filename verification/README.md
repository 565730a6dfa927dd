# Playlist tools of a conversational Spotify assistant, in Dafny

This project models the tool layer of a chat assistant that manages a user's
Spotify playlists: the four tool factories `listPlaylists`, `searchTracks`,
`getPlaylistTracks` and `modifyPlaylist`. Each factory is bound to an access-token
accessor. Each tool validates its arguments against a schema, checks the token,
calls the Spotify Web API, and shapes the answer.

The model is functional:

- A tool's arguments are an immutable `Input` record. The schema is a `Valid` predicate.
- The token is an `Option<string>`. "Falsy" (`Tooling.Truthy` false) means absent or empty.
- The remote platform is `Spotify.Platform`, a record of arbitrary total functions from a
  `RemoteCall` to a reply. A reply is a body or a `RemoteError`.
- Each tool is an `Invoke` function: schema validation, then the tool's `execute` (`Execute`).
  It returns a `Run`: the result (`Success` or a `ToolError`) together with the ordered log of
  every remote call it made.
- JavaScript `undefined`/`null`/value is `Js.Maybe`, so each `??` and `?.` in the tools is explicit.
- JSON numbers are `real`, so `z.number().int()` is a real check. The integer sent to the
  platform is shown to equal the argument exactly.
- Thrown errors become `ToolError` values. These are the missing-token error, a rejected remote
  call, and the `TypeError` that JavaScript raises when reading a property of `null`.

Modules: `Wrappers`, `Js`, `Spotify` (response objects, calls, responder), `Tooling` (errors,
token guard, `Run`), `Tracks` (the track projection shared by search and playlist reads), one
module per tool, and `Toolset`. `Toolset` dispatches a named call to its tool; it is a device of the model, not part of the program, and exists to state what all four tools share.

Facts about the code that shape the model:

- `toUri` returns a `https://open.spotify.com/track/...` link unchanged, query string included.
  It does not extract the ID.
- The mutation schema puts no cap on the number of IDs and has no insertion-position argument.
- `searchTracks` accepts `query` and `queries` together, and `queries` wins. An empty `queries`
  array is rejected by `.min(1)` even when `query` is present.
- All four tools throw when the token is missing, `modifyPlaylist` included.
- `lib/agent/Agent.ts` makes one `streamText` call with only `listPlaylists` registered. No
  orchestration loop of its own exists in the code, so none is modelled.

## Model

| member | source | states |
|---|---|---|
| ModifyPlaylist.ToUri | lib/agent/tools/modifyPlaylist.ts:51-54 | total; the output always starts with `spotify:track:` or the web-link prefix; the input is returned unchanged exactly when it already has one of them, otherwise it is prefixed with `spotify:track:` |
| ModifyPlaylist.ToUriIdempotent | lib/agent/tools/modifyPlaylist.ts:51-54 | normalising twice equals normalising once |
| ModifyPlaylist.ToUriBareIdAndUriAgree | lib/agent/tools/modifyPlaylist.ts:51-54 | a bare ID and its `spotify:track:` form normalise to the same URI |
| ModifyPlaylist.ToUriKeepsWebLinks | lib/agent/tools/modifyPlaylist.ts:51-54 | a web link with a query string is submitted as-is, not reduced to the ID |
| ModifyPlaylist.BareIdUri | lib/agent/tools/modifyPlaylist.ts:51-54 | an ID containing no colon, such as every 22-character base62 track ID, is treated as bare and prefixed |
| ModifyPlaylist.ToUris | lib/agent/tools/modifyPlaylist.ts:64 | one URI per ID, in input order, each the normalised ID |
| ModifyPlaylist.ToUrisIdempotent | lib/agent/tools/modifyPlaylist.ts:64 | normalising a list twice equals normalising it once |
| ModifyPlaylist.Execute | lib/agent/tools/modifyPlaylist.ts:39-75 | a falsy token throws before any call; at most two calls, all mutations of `playlistId` with the token; a non-empty removal list gives exactly one removal call, first, with the URIs in order; the addition call comes last, exists exactly when the add list is non-empty and the removal went through, and carries the URIs in order; success exactly when every call made succeeded, otherwise the last call's rejection; the record echoes `playlistId` and sets `removed`/`added` to the list lengths only for non-empty lists |
| ModifyPlaylist.CallsFollowPlan | lib/agent/tools/modifyPlaylist.ts:62-73 | with a token, the call log is always a prefix of the plan "removal if any, then addition if any"; the whole plan runs and the counts are returned exactly when the platform accepts every planned call |
| ModifyPlaylist.Invoke | lib/agent/tools/modifyPlaylist.ts:14-38 | invalid input (empty `playlistId`, an empty ID, or both lists empty or absent) is rejected with no call; input the schema accepts is never rejected, and with a token it reaches the platform with calls that are a prefix of the plan "removal if any, then addition if any"; no token means no call; only mutations are made |
| ModifyPlaylist.EmptyMutationRejected | lib/agent/tools/modifyPlaylist.ts:32-38 | both lists empty or absent: a validation error and zero remote calls, whatever the token |
| ModifyPlaylist.RemoveOnlyScenario | lib/agent/tools/modifyPlaylist.ts:62-67 | removing `T1`,`T2` from `P1` makes one removal call with `spotify:track:T1`,`spotify:track:T2` and returns `{playlistId: P1, removed: 2}` |
| ModifyPlaylist.RemoveThenAddScenario | lib/agent/tools/modifyPlaylist.ts:62-75 | removing `T1` and adding `T3` makes the removal call, then the addition call, and returns both counts |
| Tracks.ArtistRefs | lib/agent/tools/searchTracks.ts:71 | one `{id, name}` per artist, same length and order |
| Tracks.MapTrack | lib/agent/tools/searchTracks.ts:67-82 | copies id, uri, name, album id, name and images, release date, duration, explicit flag and popularity as-is; keeps the artist list's length and order; an absent or null `preview_url` becomes null, a present one is kept |
| Tracks.MapTracks | lib/agent/tools/searchTracks.ts:94 | one shaped track per item, in item order |
| SearchTracks.Limit | lib/agent/tools/searchTracks.ts:29-36 | an accepted `limit` is an integer in [1,50], 5 when absent, equal to the argument otherwise |
| SearchTracks.Offset | lib/agent/tools/searchTracks.ts:37-43 | an accepted `offset` is a non-negative integer, 0 when absent, equal to the argument otherwise |
| SearchTracks.Requests | lib/agent/tools/searchTracks.ts:86-88 | one search call per query, call i for query i, all with the same limit, offset and market |
| SearchTracks.Gather | lib/agent/tools/searchTracks.ts:86-98 | succeeds exactly when every search succeeds; then group i has `query == queries[i]` and the shaped items of search i; otherwise the error is one search's rejection |
| SearchTracks.Execute | lib/agent/tools/searchTracks.ts:55-104 | a falsy token throws before any search; with non-empty `queries`, one call per query in order and a `resultsByQuery` of the same length whose entry i names query i and holds the shaped items of search i; otherwise exactly one search for `query` and a flat list of its shaped items; success exactly when every search succeeded |
| SearchTracks.Invoke | lib/agent/tools/searchTracks.ts:15-53 | input failing the schema (empty `query`, a `queries` array that is empty or contains an empty string, bad limit/offset, a market that is not two ASCII letters, or neither query form) is rejected with no call; input the schema accepts is never rejected, and with a token it makes exactly the searches `execute` issues: one per element of a non-empty `queries` in order, otherwise one for `query`, each with the accepted limit, offset and market; no token means no call; only searches are made |
| SearchTracks.QueriesTakePrecedence | lib/agent/tools/searchTracks.ts:85-98 | with both `query` and `queries`, every search is for an element of `queries` and the result is grouped by `queries` |
| SearchTracks.EmptyQueriesRejected | lib/agent/tools/searchTracks.ts:24-28 | `queries: []` is rejected even when `query` is given |
| SearchTracks.MissingItemsGiveNoTracks | lib/agent/tools/searchTracks.ts:90-104 | when no body has `tracks.items`, every group is empty in grouped mode and the flat list is empty otherwise |
| SearchTracks.TwoQueriesScenario | lib/agent/tools/searchTracks.ts:85-98 | two queries give two groups, named after the queries in order |
| GetPlaylistTracks.Limit | lib/agent/tools/getPlaylistTracks.ts:20-27 | an accepted `limit` is an integer in [1,100], 20 when absent, equal to the argument otherwise |
| GetPlaylistTracks.Offset | lib/agent/tools/getPlaylistTracks.ts:28-34 | an accepted `offset` is a non-negative integer, 0 when absent, equal to the argument otherwise |
| GetPlaylistTracks.MapItem | lib/agent/tools/getPlaylistTracks.ts:52-72 | an entry with a track is shaped as that track plus `addedAt` and `addedBy` (the adder's id, or undefined when there is no adder); an entry whose track is null throws a `TypeError` |
| GetPlaylistTracks.MapItems | lib/agent/tools/getPlaylistTracks.ts:77 | succeeds exactly when every entry has a track; then one item per entry, in order |
| GetPlaylistTracks.Execute | lib/agent/tools/getPlaylistTracks.ts:37-79 | a falsy token throws before the call; otherwise exactly one fetch with `playlistId`, limit and offset; output `playlistId` equals the input; `total` is the body's total or 0; `tracks` follows the body's items, or `[]` when they are missing |
| GetPlaylistTracks.Invoke | lib/agent/tools/getPlaylistTracks.ts:14-36 | an empty `playlistId` or bad limit/offset is rejected with no call; input the schema accepts is never rejected, and with a token it makes exactly the one fetch for its `playlistId`, limit and offset; no token means no call; at most one read call |
| GetPlaylistTracks.MissingFieldsDefault | lib/agent/tools/getPlaylistTracks.ts:50-77 | a missing body, or one without `items` and `total`, gives `{playlistId, total: 0, tracks: []}` |
| GetPlaylistTracks.NullTrackThrows | lib/agent/tools/getPlaylistTracks.ts:52-58 | any entry with a null track makes the tool fail with a `TypeError` after its single fetch |
| ListPlaylists.Limit | lib/agent/tools/listPlaylists.ts:16-23 | an accepted `limit` is an integer in [1,50], 20 when absent, equal to the argument otherwise |
| ListPlaylists.Offset | lib/agent/tools/listPlaylists.ts:24-31 | an accepted `offset` is a non-negative integer, 0 when absent, equal to the argument otherwise |
| ListPlaylists.Summarize | lib/agent/tools/listPlaylists.ts:48 | a playlist becomes just its `{id, name}`; a null entry becomes `{undefined, undefined}` |
| ListPlaylists.SummarizeAll | lib/agent/tools/listPlaylists.ts:48 | one summary per item, in item order |
| ListPlaylists.Execute | lib/agent/tools/listPlaylists.ts:33-49 | a falsy token throws before the call; otherwise exactly one `getUserPlaylists` call with limit and offset; on success the output has the items' length and order, each element only `id` and `name` |
| ListPlaylists.Invoke | lib/agent/tools/listPlaylists.ts:14-32 | a bad limit or offset is rejected with no call; input the schema accepts is never rejected, and with a token it makes exactly the one `getUserPlaylists` call for its limit and offset; no token means no call; at most one read call |
| ListPlaylists.MissingItemsListNothing | lib/agent/tools/listPlaylists.ts:46 | a missing body or `items` lists no playlists |
| ListPlaylists.DefaultPage | lib/agent/tools/listPlaylists.ts:33-45 | with no arguments the fetch asks for limit 20, offset 0 |
| Toolset.Dispatch | lib/agent/tools/listPlaylists.ts:38-40 | the same token guard appears in every tool (also searchTracks.ts:60-62, getPlaylistTracks.ts:42-44, modifyPlaylist.ts:44-46); for every tool: no usable token means no remote call, failing with the validation error for bad input and the missing-token error otherwise; every call carries the token; only `modifyPlaylist` mutates, with at most two calls |

## Left out

- `lib/agent/Agent.ts` and `app/api/chat/route.ts`: thin wrappers around the language-model SDK's streaming call and HTTP. The route passes no token accessor, so the default `() => undefined` applies.
- `lib/auth.ts`: OAuth refresh over the network and an expiry check against the wall clock.
- `lib/agent/Prompts.ts` and the UI components: prompt text and rendering, with no logic the tools depend on.
- Tool descriptions: natural-language text for the model, not used by code.
- The token accessor is modelled by its resolved value. Its asynchrony is not modelled, and neither is the `typeof getAccessToken === 'function'` check.
- Zod's issue lists and messages: a rejection is a bare `ValidationError`.
- Inputs are well-typed: a missing required field or a value of the wrong JSON type (such as `query: 42` or `limit: null`), which the schema rejects, is not modelled.
- JSON numbers are finite reals. Non-numeric or non-finite values are not modelled.
- Fields that the platform's typings declare as present are assumed present. Only the reads the code guards with `?.` or `??` may find them missing, plus the null `track` of a playlist entry.
- A search response always has a `body`. The code reads `resp.body.tracks` without `?.`, so the model assumes it is there.
- `getPlaylistTracks` returns flat objects that merge track fields with `addedAt`/`addedBy`. The model nests the track inside `Item`; the information is the same.
- The removal URIs are wrapped as `{ uri }` objects for the client library. The call log records the URI list.
- The snapshot identifier a mutation returns is ignored, as the code ignores it.
- SearchTracks.Gather: `Promise.all` rejects with the rejection that happens first in time. The sequential model reports the lowest-index rejection, so the contract only says the error comes from one of the failing searches.
- The platform's replies are deterministic per call: two identical calls (for example `queries: ["A", "A"]`) get the same answer, though the real platform may answer them differently, for instance when one is rate-limited. No proved property depends on this.
