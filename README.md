# Deployment-metadata resolver of bosh-deployment-dashboard, in Dafny

The `cf` package of bosh-deployment-dashboard resolves which Cloud Foundry
apps, space and organization own a BOSH deployment, from the deployment's
name. Its result, a `cf.DeploymentInfo`, is the type of the `Cf` field of
`info.Info` (`info/info.go:13`). No code in the repository calls the resolver
or fills that field: the agent's `sendVMInformation`
(`cmd/agent/main.go:47-72`) builds `info.Info` from `Spec`, `Label` and `Stats`
only. `CF.GetDeploymentInfo` (`cf/cf.go`) works in three steps:

- It pulls the service-instance id out of the deployment name with the regular
  expression `service-instance_(.*)`.
- It walks the Cloud Foundry v2 API one GET at a time: the instance's service
  bindings, then one app per binding, then the space of the last app, then that
  space's organization.
- It assembles a `DeploymentInfo{AppNames, SpaceName, OrgName}`.

`CF.makeRequest` performs each GET and sorts the response three ways:

- 200: the body is decoded into the caller's destination.
- 404: an error is returned.
- Any other status: nothing is reported and the destination is left alone.

The model consists of these files:

- `matcher.dfy` (module `DeploymentName`): the regular expression's meaning.
  The match is unanchored, so it starts at the leftmost occurrence of
  `service-instance_`. The capture `(.*)` is greedy. In RE2, `.` matches no
  newline, so the id runs up to the first newline or the end of the name.
- `resources.dfy` (module `Resources`) holds:
  - the record shapes of `cf/cf.go:10-56`;
  - the server, as a finite table of already-decoded responses by full URL,
    plus the response every other URL gets;
  - the field decoding, where an absent field reads as "";
  - the four hand-built request paths.
- `client.dfy` (module `Client`): `MakeRequest`. The Go `dest` pointer is a
  `Box<T>` object that the method fills in place.
- `resolver.dfy` (module `Resolver`) holds two things:
  - `Resolve`, a declarative statement of one resolution: the
    `DeploymentInfo`, the error, and the paths requested, in order.
  - `GetDeploymentInfo`, the source's imperative traversal. Its loop appends
    to `AppNames` and overwrites `spaceGUID`, and it is proved to produce
    exactly `Resolve`.
- `resolver_properties.dfy` (module `ResolverProperties`): what follows about
  the requests and the result.
- `wrappers.dfy`: `Option`, used for Go's nil-or-error and the matcher's
  no-match.

Behaviour of the code worth noting:

- No root service-instance resource is fetched. The first request is the
  hand-built bindings path; no `*_url` field of a response is ever followed.
- A name that does not match is a silent empty result, not an error.
- Only a 404 on the bindings listing is an error. Every other failure is
  swallowed: a non-404 listing failure, and any failed app, space or
  organization lookup.
- The error text carries the status line and the path but no response body.
- The space comes from the last app. With no binding there is no space or
  organization lookup.
- The organization lookup is made even when the space names no organization.

## Model

| member | source | states |
|---|---|---|
| DeploymentName.FindPrefix | cf/cf.go:59-64 | finds the leftmost start of `service-instance_` at or after a position; None exactly when there is none |
| DeploymentName.DotStar | cf/cf.go:59 | the greedy `(.*)` capture: the longest newline-free prefix of the text, ending at the end or right before a newline |
| DeploymentName.InstanceId | cf/cf.go:59-69 | no match exactly when the name does not contain `service-instance_`; a matched id is newline-free and follows an occurrence of the prefix |
| DeploymentName.LeftmostOccurrenceWins | cf/cf.go:59-69 | when the first occurrence of the prefix is at k, the id is the capture after k, whatever later occurrences follow |
| DeploymentName.InstanceIdOfPrefixed | cf/cf.go:59-69 | a name starting with the prefix yields the greedy capture of all that follows it |
| DeploymentName.InstanceIdOfConventionalName | cf/cf.go:59-69 | `service-instance_` + id gives back exactly id for every newline-free id |
| DeploymentName.InstanceIdStopsAtNewline | cf/cf.go:59-69 | text after the first newline following the prefix never reaches the id |
| DeploymentName.DotStarOfSingleLine | cf/cf.go:59 | `(.*)` captures a newline-free text whole |
| DeploymentName.DotStarStopsAtNewline | cf/cf.go:59 | `(.*)` of line + newline + rest is exactly line |
| Resources.PathsAreInjective | cf/cf.go:70-102 | each kind of path gives back the identifier it was built from |
| Resources.PathKindsAreDisjoint | cf/cf.go:70-102 | bindings, app, space and organization paths never coincide, whatever the identifiers |
| Client.NotFoundError | cf/cf.go:115 | the error text starts with `invalid response [` and ends with the path; its length is that of the status line, the path and the fixed text |
| Client.NotFoundErrorNamesStatusAndPath | cf/cf.go:115 | the message determines the status line between the brackets and the path after `for GET `: equal messages come from equal status lines and equal paths |
| Client.MakeRequest | cf/cf.go:108-119 | 200: the destination gets the decoded body and no error; 404: destination unchanged and the error for that status and path; any other status: destination unchanged and no error |
| Resolver.GetDeploymentInfo | cf/cf.go:62-106 | returns exactly the `DeploymentInfo`, error and request sequence of `Resolve`; its loop keeps the requests, the names and `spaceGUID` equal to those of the bindings seen so far |
| ResolverProperties.AppPathsAt | cf/cf.go:81-88 | one app request per binding, the i-th for the i-th binding's `app_guid` |
| ResolverProperties.AppNamesAt | cf/cf.go:81-89 | one name per binding, the i-th from the i-th binding's app lookup |
| ResolverProperties.NoMatchIsSilent | cf/cf.go:63-66 | a name without `service-instance_` gives the empty result, no error and no request |
| ResolverProperties.FirstRequestListsBindings | cf/cf.go:69-76 | on a match the first request is `/v2/service_instances/<id>/service_bindings` for the captured id |
| ResolverProperties.BindingsNotFoundIsTheError | cf/cf.go:76-79 | a 404 on the listing gives the empty result, the error `invalid response [<status>] for GET <path>`, and no further request |
| ResolverProperties.OnlyBindingsNotFoundFails | cf/cf.go:76-105 | the result carries an error if and only if the name matched and the bindings listing came back 404 |
| ResolverProperties.ListedBindingsFollowTheListing | cf/cf.go:71-81 | the bindings iterated are those of a 200 listing in listing order with their `app_guid`s, and none for any other status |
| ResolverProperties.BindingsFailureIsSwallowed | cf/cf.go:76-95 | a listing failing with a status other than 200 or 404 gives the empty result, no error, and only the listing request |
| ResolverProperties.AfterBindingsStartsWithApps | cf/cf.go:76-91 | past the listing, the requests start with the listing and then one app lookup per binding, and the names are the app names |
| ResolverProperties.OneAppLookupPerBinding | cf/cf.go:81-91 | N bindings give N app requests right after the listing, in order; N names, the i-th being the `name` of the i-th app's 200 response or "" for any other status; no error |
| ResolverProperties.NoSpaceGuidEndsAfterApps | cf/cf.go:73-95 | with no binding, or a last app without `space_guid`, exactly 1 + N requests, empty space and organization names, no error |
| ResolverProperties.SpaceOfLastAppThenOrganization | cf/cf.go:90-105 | when the last app names a space: exactly N + 3 requests, then that space, then the organization it names (even ""); the names are what those lookups gave; no error |
| ResolverProperties.RequestCount | cf/cf.go:76-103 | past the listing, the request count is 1 + N, plus 2 when the last app gave a space |
| ResolverProperties.AppNamesAgree | cf/cf.go:81-91 | the names and the last space depend only on the responses to the app lookups |
| ResolverProperties.AfterBindingsNextRequest | cf/cf.go:81-103 | past the listing, each request is fixed by the responses to the requests before it |
| ResolverProperties.NextRequestDependsOnlyOnEarlierResponses | cf/cf.go:76-103 | the requests are sequential: two servers that answered the first k requests alike get the same (k+1)-th request |
| ResolverProperties.AfterBindingsAgree | cf/cf.go:81-105 | past the listing, the outcome depends only on the responses to the requests made |
| ResolverProperties.OutcomeDependsOnlyOnRequestedResponses | cf/cf.go:62-106 | any server answering the requested URLs alike yields the same result, error and requests |
| ResolverProperties.OneBoundAppScenario | cf/cf_test.go:60-82 | for any single-binding server answering 200 throughout: requests go bindings, app, space, organization, and the result is the app, space and organization names |

## Left out

- HTTP transport (`cf/cf.go:109`): a GET always yields a response from the
  server table. The discarded transport error and the nil `resp` it would
  dereference are not modelled. The base URL is prefixed to every path; the
  request sequence records paths without it, as the error text does.
- JSON decoding (`cf/cf.go:113`): bodies are modelled as already decoded into
  string fields. Decode errors (ignored by the code), non-string values and
  Go's case-insensitive key matching are not modelled.
- Client.MakeRequest: a 200 replaces the destination with the decoded record.
  `json.Decode` merges into the destination instead. Every call site passes a
  zero-valued destination, so the two agree.
- Go strings are bytes; the model works on characters. RE2's `.` takes any
  character but a newline, an invalid byte included, so the id is the same.
- Client.NotFoundErrorNamesStatusAndPath: requires that neither status line
  contains `]`, because a bracket inside the status would make the split
  ambiguous. The standard reason phrases contain none. A server that sends a
  reason phrase containing `]` can make two (status, path) pairs give the same
  message, e.g. status `404 a] for GET b` with path `c`, and status `404 a`
  with path `b] for GET c`.
- A nil `AppNames` slice and an empty one are not distinguished.
- The JSON form of `DeploymentInfo` is left out: the core never encodes it.
- `cf/cf_test.go` is out of step with `cf/cf.go`: it uses `ApiURL`, `GetInfo`
  and `BoundAppNames`, which `cf/cf.go` does not declare. Only its request order and expected names are used, as
  `OneBoundAppScenario`, generalised to any identifiers and names.
- The hub (`cmd/hub/main.go`) is not part of this model: HTTP handlers and
  SQLite storage. So are the agent loop (`cmd/agent/main.go`: timers, signals,
  HTTP POST) and system sampling (`system/system.go`: OS calls and floating
  point averages). Configuration loading (`config/config.go`: file and YAML
  libraries), the `info.Info` record (`info/info.go`: a declaration only) and
  the integration tests are left out too.
