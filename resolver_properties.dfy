/** What one resolution requests and returns, stated about `Resolve` (and so,
    by its postcondition, about `GetDeploymentInfo`). */
module ResolverProperties {
  import opened Wrappers
  import opened Resources
  import opened DeploymentName
  import opened Client
  import opened Resolver

  /** The app lookups follow the bindings one for one, in listing order. */
  lemma {:induction false} AppPathsAt(bindings: seq<ServiceBindingEntity>)
    ensures |AppPaths(bindings)| == |bindings|
    ensures forall i :: 0 <= i < |bindings| ==> AppPaths(bindings)[i] == AppPath(bindings[i].appGuid)
  {
    if bindings != [] {
      var front := bindings[..|bindings| - 1];
      AppPathsAt(front);
      assert forall i :: 0 <= i < |front| ==> front[i] == bindings[i];
    }
  }

  /** The i-th name is the name the i-th binding's app lookup gave. */
  lemma {:induction false} AppNamesAt(cf: CF, server: Server, bindings: seq<ServiceBindingEntity>)
    ensures |AppNames(cf, server, bindings)| == |bindings|
    ensures forall i :: 0 <= i < |bindings| ==>
      AppNames(cf, server, bindings)[i] == AppOf(cf, server, bindings[i].appGuid).name
  {
    if bindings != [] {
      var front := bindings[..|bindings| - 1];
      AppNamesAt(cf, server, front);
      assert forall i :: 0 <= i < |front| ==> front[i] == bindings[i];
    }
  }

  /** A name that does not match the convention is not an error and costs no
      request (cf/cf.go:63-66). */
  lemma NoMatchIsSilent(cf: CF, server: Server, deploymentName: string)
    requires !Matches(deploymentName)
    ensures Resolve(cf, server, deploymentName) == Resolution(EmptyInfo, None, [])
  {
  }

  /** On a match, the first request lists the bindings of the captured
      instance id (cf/cf.go:69-70, 76). */
  lemma FirstRequestListsBindings(cf: CF, server: Server, deploymentName: string, id: string)
    requires InstanceId(deploymentName) == Some(id)
    ensures |Resolve(cf, server, deploymentName).requested| >= 1
    ensures Resolve(cf, server, deploymentName).requested[0] == "/v2/service_instances/" + id + "/service_bindings"
  {
  }

  /** A 404 on the bindings listing ends the resolution: an empty result, the
      error naming status line and path, and no further request
      (cf/cf.go:76-79, 114-115). */
  lemma BindingsNotFoundIsTheError(cf: CF, server: Server, deploymentName: string, id: string)
    requires InstanceId(deploymentName) == Some(id)
    requires BindingsResponse(cf, server, id).statusCode == StatusNotFound
    ensures var path := "/v2/service_instances/" + id + "/service_bindings";
      Resolve(cf, server, deploymentName) ==
        Resolution(EmptyInfo,
                   Some("invalid response [" + BindingsResponse(cf, server, id).status + "] for GET " + path),
                   [path])
  {
  }

  /** That is the only error a resolution ever returns: every failure of an
      app, space or organization lookup is swallowed (cf/cf.go:77, 88, 98, 102). */
  lemma OnlyBindingsNotFoundFails(cf: CF, server: Server, deploymentName: string)
    ensures Resolve(cf, server, deploymentName).err.Some? <==>
      InstanceId(deploymentName).Some? &&
      BindingsResponse(cf, server, InstanceId(deploymentName).value).statusCode == StatusNotFound
  {
  }

  /** The bindings iterated over: those of a 200 listing, in listing order,
      and none at all for any other status (cf/cf.go:71, 81, 111-113). */
  lemma ListedBindingsFollowTheListing(cf: CF, server: Server, id: string)
    ensures var resp := BindingsResponse(cf, server, id);
      && (resp.statusCode == StatusOK ==>
            |ListedBindings(cf, server, id)| == |resp.body.resources| &&
            forall i :: 0 <= i < |resp.body.resources| ==>
              ListedBindings(cf, server, id)[i].appGuid == Field(resp.body.resources[i], "app_guid"))
      && (resp.statusCode != StatusOK ==> ListedBindings(cf, server, id) == [])
  {
  }

  /** A bindings listing that fails with a status other than 404 is treated
      as an empty listing: no error, no app, no further request. */
  lemma BindingsFailureIsSwallowed(cf: CF, server: Server, deploymentName: string, id: string)
    requires InstanceId(deploymentName) == Some(id)
    requires BindingsResponse(cf, server, id).statusCode != StatusOK
    requires BindingsResponse(cf, server, id).statusCode != StatusNotFound
    ensures Resolve(cf, server, deploymentName) == Resolution(EmptyInfo, None, [BindingsPath(id)])
  {
  }

  /** The trace after a bindings listing starts with that listing and one
      lookup per binding, and the names are those of `AppNames`. */
  lemma AfterBindingsStartsWithApps(cf: CF, server: Server, path: string, bindings: seq<ServiceBindingEntity>)
    ensures var r := AfterBindings(cf, server, path, bindings);
      && |r.requested| >= 1 + |bindings|
      && r.requested[0] == path
      && (forall i :: 0 <= i < |bindings| ==> r.requested[1 + i] == AppPath(bindings[i].appGuid))
      && r.info.appNames == AppNames(cf, server, bindings)
  {
    AppPathsAt(bindings);
    var prefix := [path] + AppPaths(bindings);
    assert forall i :: 0 <= i < |bindings| ==> prefix[1 + i] == AppPath(bindings[i].appGuid);
  }

  /** One app lookup per binding, in listing order, right after the bindings
      listing; one name per binding, in the same order, "" for an app whose
      lookup did not come back 200 (cf/cf.go:81-91). */
  lemma OneAppLookupPerBinding(cf: CF, server: Server, deploymentName: string, id: string)
    requires InstanceId(deploymentName) == Some(id)
    requires BindingsResponse(cf, server, id).statusCode != StatusNotFound
    ensures var bindings := ListedBindings(cf, server, id);
            var r := Resolve(cf, server, deploymentName);
      && r.err == None
      && |r.requested| >= 1 + |bindings|
      && |r.info.appNames| == |bindings|
      && forall i :: 0 <= i < |bindings| ==>
           var resp := server.Respond(cf.url + ("/v2/apps/" + bindings[i].appGuid));
           && r.requested[1 + i] == "/v2/apps/" + bindings[i].appGuid
           && r.info.appNames[i] == (if resp.statusCode == StatusOK then Field(resp.body.entity, "name") else "")
  {
    var bindings := ListedBindings(cf, server, id);
    AfterBindingsStartsWithApps(cf, server, BindingsPath(id), bindings);
    AppNamesAt(cf, server, bindings);
  }

  /** No space or organization is looked up when there is no binding, or when
      the last app gave no space: the names stay "" (cf/cf.go:73, 90, 93-95). */
  lemma NoSpaceGuidEndsAfterApps(cf: CF, server: Server, deploymentName: string, id: string)
    requires InstanceId(deploymentName) == Some(id)
    requires BindingsResponse(cf, server, id).statusCode != StatusNotFound
    requires var bindings := ListedBindings(cf, server, id);
      bindings == [] || AppOf(cf, server, bindings[|bindings| - 1].appGuid).spaceGuid == ""
    ensures var r := Resolve(cf, server, deploymentName);
      && r.err == None
      && |r.requested| == 1 + |ListedBindings(cf, server, id)|
      && r.info.spaceName == "" && r.info.orgName == ""
  {
    AppPathsAt(ListedBindings(cf, server, id));
  }

  /** Otherwise the space of the LAST app is looked up, then the organization
      that space names (even an empty one); their names are what those
      lookups gave, and their failures are swallowed (cf/cf.go:90, 97-105). */
  lemma SpaceOfLastAppThenOrganization(cf: CF, server: Server, deploymentName: string, id: string)
    requires InstanceId(deploymentName) == Some(id)
    requires BindingsResponse(cf, server, id).statusCode != StatusNotFound
    requires var bindings := ListedBindings(cf, server, id);
      bindings != [] && AppOf(cf, server, bindings[|bindings| - 1].appGuid).spaceGuid != ""
    ensures var bindings := ListedBindings(cf, server, id);
            var n := |bindings|;
            var spaceGuid := AppOf(cf, server, bindings[n - 1].appGuid).spaceGuid;
            var space := SpaceOf(cf, server, spaceGuid);
            var r := Resolve(cf, server, deploymentName);
      && r.err == None
      && |r.requested| == n + 3
      && r.requested[n + 1] == "/v2/spaces/" + spaceGuid
      && r.requested[n + 2] == "/v2/organizations/" + space.organizationGuid
      && r.info.spaceName == space.name
      && r.info.orgName == OrgOf(cf, server, space.organizationGuid).name
  {
    AppPathsAt(ListedBindings(cf, server, id));
  }

  /** The number of requests of a resolution that got past the bindings
      listing: 1 + N + (2 when the last app gave a space) (cf/cf.go:76-103). */
  lemma RequestCount(cf: CF, server: Server, deploymentName: string, id: string)
    requires InstanceId(deploymentName) == Some(id)
    requires BindingsResponse(cf, server, id).statusCode != StatusNotFound
    ensures var bindings := ListedBindings(cf, server, id);
      |Resolve(cf, server, deploymentName).requested| ==
        1 + |bindings| + (if LastSpaceGuid(cf, server, bindings) != "" then 2 else 0)
  {
    AppPathsAt(ListedBindings(cf, server, id));
  }

  /** Two servers give the same responses to `cf.url + p` for each path `p`. */
  predicate AgreeOn(cf: CF, s1: Server, s2: Server, paths: seq<string>)
  {
    forall j :: 0 <= j < |paths| ==> s1.Respond(cf.url + paths[j]) == s2.Respond(cf.url + paths[j])
  }

  /** Names of apps depend only on the responses to their lookups. */
  lemma {:induction false} AppNamesAgree(cf: CF, s1: Server, s2: Server, bindings: seq<ServiceBindingEntity>)
    requires AgreeOn(cf, s1, s2, AppPaths(bindings))
    ensures AppNames(cf, s1, bindings) == AppNames(cf, s2, bindings)
    ensures LastSpaceGuid(cf, s1, bindings) == LastSpaceGuid(cf, s2, bindings)
  {
    if bindings != [] {
      var n := |bindings|;
      var front := bindings[..n - 1];
      AppPathsAt(bindings);
      AppPathsAt(front);
      assert AppPaths(bindings)[n - 1] == AppPath(bindings[n - 1].appGuid);
      assert forall j :: 0 <= j < |front| ==> AppPaths(front)[j] == AppPaths(bindings)[j];
      AppNamesAgree(cf, s1, s2, front);
    }
  }

  /** After the bindings listing, each request is derived from the responses
      before it only. */
  lemma AfterBindingsNextRequest(cf: CF, s1: Server, s2: Server, path: string,
                                 bindings: seq<ServiceBindingEntity>, k: nat)
    requires 1 <= k < |AfterBindings(cf, s1, path, bindings).requested|
    requires AgreeOn(cf, s1, s2, AfterBindings(cf, s1, path, bindings).requested[..k])
    ensures k < |AfterBindings(cf, s2, path, bindings).requested|
    ensures AfterBindings(cf, s2, path, bindings).requested[k] == AfterBindings(cf, s1, path, bindings).requested[k]
  {
    var trace := AfterBindings(cf, s1, path, bindings).requested[..k];
    var n := |bindings|;
    AppPathsAt(bindings);
    if k > n {
      assert trace[n] == AppPath(bindings[n - 1].appGuid);
      assert AppOf(cf, s1, bindings[n - 1].appGuid) == AppOf(cf, s2, bindings[n - 1].appGuid);
      var spaceGuid := LastSpaceGuid(cf, s1, bindings);
      if k > n + 1 {
        assert trace[n + 1] == SpacePath(spaceGuid);
        assert SpaceOf(cf, s1, spaceGuid) == SpaceOf(cf, s2, spaceGuid);
      }
    }
  }

  /** The requests are strictly sequential and each is derived from the
      responses before it only: two servers that answered the first k
      requests alike are sent the same (k+1)-th request (cf/cf.go:76-103). */
  lemma NextRequestDependsOnlyOnEarlierResponses(cf: CF, s1: Server, s2: Server, deploymentName: string, k: nat)
    requires k < |Resolve(cf, s1, deploymentName).requested|
    requires AgreeOn(cf, s1, s2, Resolve(cf, s1, deploymentName).requested[..k])
    ensures k < |Resolve(cf, s2, deploymentName).requested|
    ensures Resolve(cf, s2, deploymentName).requested[k] == Resolve(cf, s1, deploymentName).requested[k]
  {
    var id := InstanceId(deploymentName).value;
    if k > 0 {
      var r1 := Resolve(cf, s1, deploymentName);
      assert r1.requested[..k][0] == BindingsPath(id);
      assert BindingsResponse(cf, s1, id) == BindingsResponse(cf, s2, id);
      var bindings := ListedBindings(cf, s1, id);
      assert r1 == AfterBindings(cf, s1, BindingsPath(id), bindings);
      assert Resolve(cf, s2, deploymentName) == AfterBindings(cf, s2, BindingsPath(id), bindings);
      AfterBindingsNextRequest(cf, s1, s2, BindingsPath(id), bindings, k);
    }
  }

  /** After the bindings listing, the outcome depends only on the responses
      to the requests made. */
  lemma AfterBindingsAgree(cf: CF, s1: Server, s2: Server, path: string, bindings: seq<ServiceBindingEntity>)
    requires AgreeOn(cf, s1, s2, AfterBindings(cf, s1, path, bindings).requested)
    ensures AfterBindings(cf, s2, path, bindings) == AfterBindings(cf, s1, path, bindings)
  {
    var r1 := AfterBindings(cf, s1, path, bindings);
    var n := |bindings|;
    AfterBindingsStartsWithApps(cf, s1, path, bindings);
    AppPathsAt(bindings);
    assert AgreeOn(cf, s1, s2, AppPaths(bindings)) by {
      assert forall j :: 0 <= j < n ==> AppPaths(bindings)[j] == r1.requested[1 + j];
    }
    AppNamesAgree(cf, s1, s2, bindings);
    var spaceGuid := LastSpaceGuid(cf, s1, bindings);
    if spaceGuid != "" {
      assert r1.requested[n + 1] == SpacePath(spaceGuid);
      var space := SpaceOf(cf, s1, spaceGuid);
      assert space == SpaceOf(cf, s2, spaceGuid);
      assert r1.requested[n + 2] == OrgPath(space.organizationGuid);
    }
  }

  /** The whole outcome depends only on the responses to the requests made:
      any server that answers those alike yields the same resolution. */
  lemma OutcomeDependsOnlyOnRequestedResponses(cf: CF, s1: Server, s2: Server, deploymentName: string)
    requires AgreeOn(cf, s1, s2, Resolve(cf, s1, deploymentName).requested)
    ensures Resolve(cf, s2, deploymentName) == Resolve(cf, s1, deploymentName)
  {
    if InstanceId(deploymentName).Some? {
      var id := InstanceId(deploymentName).value;
      var r1 := Resolve(cf, s1, deploymentName);
      assert r1.requested[0] == BindingsPath(id);
      assert BindingsResponse(cf, s1, id) == BindingsResponse(cf, s2, id);
      if BindingsResponse(cf, s1, id).statusCode != StatusNotFound {
        var bindings := ListedBindings(cf, s1, id);
        assert r1 == AfterBindings(cf, s1, BindingsPath(id), bindings);
        assert Resolve(cf, s2, deploymentName) == AfterBindings(cf, s2, BindingsPath(id), bindings);
        AfterBindingsAgree(cf, s1, s2, BindingsPath(id), bindings);
      }
    }
  }

  /** A server that knows one service instance with one bound app, its
      space and its organization, each answering 200 (the shape of the
      repository's own test, cf/cf_test.go:32-77); every other URL gets 404. */
  function OneAppServer(url: string, id: string, appGuid: string, appName: string, spaceGuid: string,
                        spaceName: string, orgGuid: string, orgName: string): Server
  {
    var ok := (d: Document) => Response(StatusOK, "200 OK", d);
    Server(map[
      url + BindingsPath(id) := ok(Document(map[], [map["app_guid" := appGuid]])),
      url + AppPath(appGuid) := ok(Document(map["name" := appName, "space_guid" := spaceGuid], [])),
      url + SpacePath(spaceGuid) := ok(Document(map["name" := spaceName, "organization_guid" := orgGuid], [])),
      url + OrgPath(orgGuid) := ok(Document(map["name" := orgName], []))
      ], Response(StatusNotFound, "404 Not Found", Document(map[], [])))
  }

  /** Distinct paths stay distinct under the same base URL. */
  lemma SameBaseDistinct(url: string, p: string, q: string)
    ensures url + p == url + q ==> p == q
  {
    assert (url + p)[|url|..] == p;
    assert (url + q)[|url|..] == q;
  }

  /** Against such a server the requests come in the order the test expects
      (bindings, app, space, organization) and the names it expects come back
      (cf/cf_test.go:60-82). */
  lemma OneBoundAppScenario(url: string, id: string, appGuid: string, appName: string, spaceGuid: string,
                            spaceName: string, orgGuid: string, orgName: string)
    requires '\n' !in id
    requires spaceGuid != ""
    ensures Resolve(CF(url), OneAppServer(url, id, appGuid, appName, spaceGuid, spaceName, orgGuid, orgName),
                    "service-instance_" + id) ==
      Resolution(DeploymentInfo([appName], spaceName, orgName),
                 None,
                 ["/v2/service_instances/" + id + "/service_bindings",
                  "/v2/apps/" + appGuid,
                  "/v2/spaces/" + spaceGuid,
                  "/v2/organizations/" + orgGuid])
  {
    var cf := CF(url);
    var server := OneAppServer(url, id, appGuid, appName, spaceGuid, spaceName, orgGuid, orgName);
    InstanceIdOfConventionalName(id);
    PathKindsAreDisjoint(id, appGuid, spaceGuid, orgGuid);
    SameBaseDistinct(url, BindingsPath(id), AppPath(appGuid));
    SameBaseDistinct(url, BindingsPath(id), SpacePath(spaceGuid));
    SameBaseDistinct(url, BindingsPath(id), OrgPath(orgGuid));
    SameBaseDistinct(url, AppPath(appGuid), SpacePath(spaceGuid));
    SameBaseDistinct(url, AppPath(appGuid), OrgPath(orgGuid));
    SameBaseDistinct(url, SpacePath(spaceGuid), OrgPath(orgGuid));
    var bindings := [ServiceBindingEntity(appGuid)];
    assert ListedBindings(cf, server, id) == bindings;
    assert bindings[..0] == [];
    assert AppOf(cf, server, appGuid) == AppEntity(appName, spaceGuid);
    assert SpaceOf(cf, server, spaceGuid) == SpaceEntity(spaceName, orgGuid);
    assert OrgOf(cf, server, orgGuid) == Entity(orgName);
    assert AppPaths(bindings) == [AppPath(appGuid)];
    assert AppNames(cf, server, bindings) == [appName];
    assert LastSpaceGuid(cf, server, bindings) == spaceGuid;
    assert Resolve(cf, server, Prefix + id) == AfterBindings(cf, server, BindingsPath(id), bindings);
  }
}
