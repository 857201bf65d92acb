/** The deployment resolver of cf/cf.go: `CF.GetDeploymentInfo`.

    `Resolve` states declaratively what one resolution produces: the
    `DeploymentInfo`, the error, and the sequence of paths requested from the
    resource API, in order. `GetDeploymentInfo` is the source's loop, proved to
    produce exactly that; the lemmas below state what follows about the
    requests and the result. */
module Resolver {
  import opened Wrappers
  import opened Resources
  import opened DeploymentName
  import opened Client

  /** The outcome of one call: the returned value and error, and the paths
      handed to `makeRequest`, one GET each, in the order issued. */
  datatype Resolution = Resolution(info: DeploymentInfo, err: Option<string>, requested: seq<string>)

  /** The response to the bindings listing of a service instance. */
  function BindingsResponse(cf: CF, server: Server, instanceId: string): Response
  {
    server.Respond(cf.url + BindingsPath(instanceId))
  }

  /** The bindings listed for a service instance, in listing order (none
      unless the listing came back with status 200). */
  function ListedBindings(cf: CF, server: Server, instanceId: string): seq<ServiceBindingEntity>
  {
    Fetched(BindingsResponse(cf, server, instanceId), ZeroBindings, DecodeBindings).resources
  }

  /** The app record a fresh `CFAppResource` holds after its lookup. */
  function AppOf(cf: CF, server: Server, appGuid: string): AppEntity
  {
    Fetched(server.Respond(cf.url + AppPath(appGuid)), ZeroApp, DecodeApp)
  }

  function SpaceOf(cf: CF, server: Server, spaceGuid: string): SpaceEntity
  {
    Fetched(server.Respond(cf.url + SpacePath(spaceGuid)), ZeroSpace, DecodeSpace)
  }

  function OrgOf(cf: CF, server: Server, orgGuid: string): Entity
  {
    Fetched(server.Respond(cf.url + OrgPath(orgGuid)), ZeroEntity, DecodeEntity)
  }

  /** The app lookups for `bindings`, in binding order. */
  function AppPaths(bindings: seq<ServiceBindingEntity>): seq<string>
  {
    if bindings == [] then []
    else AppPaths(bindings[..|bindings| - 1]) + [AppPath(bindings[|bindings| - 1].appGuid)]
  }

  /** The names of the apps bound, in binding order. */
  function AppNames(cf: CF, server: Server, bindings: seq<ServiceBindingEntity>): seq<string>
  {
    if bindings == [] then []
    else AppNames(cf, server, bindings[..|bindings| - 1]) + [AppOf(cf, server, bindings[|bindings| - 1].appGuid).name]
  }

  /** `spaceGUID` after the loop over `bindings`: the space of the last app,
      "" when there is no binding. */
  function LastSpaceGuid(cf: CF, server: Server, bindings: seq<ServiceBindingEntity>): string
  {
    if bindings == [] then "" else AppOf(cf, server, bindings[|bindings| - 1].appGuid).spaceGuid
  }

  /** What follows a bindings listing that did not come back 404: the
      bindings path was requested, then the app lookups, then the space and
      organization lookups unless the last app gave no space. */
  function AfterBindings(cf: CF, server: Server, bindingsPath: string, bindings: seq<ServiceBindingEntity>): Resolution
  {
    var names := AppNames(cf, server, bindings);
    var trace := [bindingsPath] + AppPaths(bindings);
    var spaceGuid := LastSpaceGuid(cf, server, bindings);
    if spaceGuid == "" then
      Resolution(DeploymentInfo(names, "", ""), None, trace)
    else
      var space := SpaceOf(cf, server, spaceGuid);
      var org := OrgOf(cf, server, space.organizationGuid);
      Resolution(DeploymentInfo(names, space.name, org.name), None,
                 trace + [SpacePath(spaceGuid)] + [OrgPath(space.organizationGuid)])
  }

  /** One resolution of `deploymentName` against `server`. */
  function Resolve(cf: CF, server: Server, deploymentName: string): Resolution
  {
    match InstanceId(deploymentName)
    case None => Resolution(EmptyInfo, None, [])
    case Some(id) =>
      var resp := BindingsResponse(cf, server, id);
      if resp.statusCode == StatusNotFound then
        Resolution(EmptyInfo, Some(NotFoundError(resp.status, BindingsPath(id))), [BindingsPath(id)])
      else
        AfterBindings(cf, server, BindingsPath(id), ListedBindings(cf, server, id))
  }

  /** `CF.GetDeploymentInfo` (cf/cf.go:62-106). */
  method GetDeploymentInfo(cf: CF, server: Server, deploymentName: string)
    returns (info: DeploymentInfo, err: Option<string>, requested: seq<string>)
    ensures Resolution(info, err, requested) == Resolve(cf, server, deploymentName)
  {
    var matches := InstanceId(deploymentName);
    if matches.None? {
      return EmptyInfo, None, [];
    }
    var serviceInstanceId := matches.value;
    var serviceBindingsURL := BindingsPath(serviceInstanceId);
    var serviceBindings := new Box(ZeroBindings);
    info := EmptyInfo;
    var spaceGUID := "";

    requested := [serviceBindingsURL];
    err := MakeRequest(cf, server, serviceBindingsURL, serviceBindings, DecodeBindings);
    if err.Some? {
      return EmptyInfo, err, requested;
    }

    var resources := serviceBindings.value.resources;
    for i := 0 to |resources|
      invariant requested == [serviceBindingsURL] + AppPaths(resources[..i])
      invariant info == DeploymentInfo(AppNames(cf, server, resources[..i]), "", "")
      invariant spaceGUID == LastSpaceGuid(cf, server, resources[..i])
    {
      assert resources[..i + 1][..i] == resources[..i];
      var appGuid := resources[i].appGuid;
      var appURL := AppPath(appGuid);
      var appResource := new Box(ZeroApp);
      requested := requested + [appURL];
      var ignored := MakeRequest(cf, server, appURL, appResource, DecodeApp);
      info := info.(appNames := info.appNames + [appResource.value.name]);
      spaceGUID := appResource.value.spaceGuid;
    }
    assert resources[..|resources|] == resources;

    if spaceGUID == "" {
      return info, None, requested;
    }

    var spaceResource := new Box(ZeroSpace);
    var spacePath := SpacePath(spaceGUID);
    requested := requested + [spacePath];
    var ignoredSpace := MakeRequest(cf, server, spacePath, spaceResource, DecodeSpace);
    info := info.(spaceName := spaceResource.value.name);

    var organizationResource := new Box(ZeroEntity);
    var orgPath := OrgPath(spaceResource.value.organizationGuid);
    requested := requested + [orgPath];
    var ignoredOrg := MakeRequest(cf, server, orgPath, organizationResource, DecodeEntity);
    info := info.(orgName := organizationResource.value.name);

    return info, None, requested;
  }
}
