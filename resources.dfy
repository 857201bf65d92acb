/** The Cloud Foundry v2 resource shapes of cf/cf.go, the server they come
    from, and the hand-built request paths.

    A JSON response body is modelled as already decoded: its top-level
    `entity` object and the `entity` object of each element of its top-level
    `resources` array, each as a map from field name to string value. A field
    the body does not carry reads as "", Go's zero value for a string. */
module Resources {

  /** The string fields of one `entity` object. */
  type Fields = map<string, string>

  /** A decoded response body: `{"entity": {...}, "resources": [{"entity": {...}}, ...]}`.
      An absent `entity` object is the empty map, an absent `resources`
      array the empty sequence. */
  datatype Document = Document(entity: Fields, resources: seq<Fields>)

  /** One HTTP response: the numeric code (`resp.StatusCode`), the status
      line (`resp.Status`, such as "404 Not Found") and the decoded body. */
  datatype Response = Response(statusCode: int, status: string, body: Document)

  /** The resource API as seen by `http.Get`: a finite table of responses by
      full URL, and the response every other URL gets. */
  datatype Server = Server(routes: map<string, Response>, otherwise: Response)
  {
    /** The response to a GET of `url`. */
    function Respond(url: string): Response
    {
      if url in routes then routes[url] else otherwise
    }
  }

  const StatusOK := 200
  const StatusNotFound := 404

  /** `DeploymentInfo` (cf/cf.go:10-14). */
  datatype DeploymentInfo = DeploymentInfo(appNames: seq<string>, spaceName: string, orgName: string)

  /** `CFEntity`, the entity of `CFResource` (cf/cf.go:16-22). */
  datatype Entity = Entity(name: string)

  /** `CFSpaceEntity`, the entity of `CFSpaceResource` (cf/cf.go:24-31). */
  datatype SpaceEntity = SpaceEntity(name: string, organizationGuid: string)

  /** `CFAppEntity`, the entity of `CFAppResource` (cf/cf.go:33-40). */
  datatype AppEntity = AppEntity(name: string, spaceGuid: string)

  /** `CFServiceBindingEntity`, the entity of `CFServiceBindingResource` (cf/cf.go:42-48). */
  datatype ServiceBindingEntity = ServiceBindingEntity(appGuid: string)

  /** `CFServiceBindings`: the bindings listing (cf/cf.go:50-52). */
  datatype ServiceBindings = ServiceBindings(resources: seq<ServiceBindingEntity>)

  /** `CF`, the client: the base URL of the resource API (cf/cf.go:54-56). */
  datatype CF = CF(url: string)

  /** Go's zero values of the record types. */
  const EmptyInfo := DeploymentInfo([], "", "")
  const ZeroEntity := Entity("")
  const ZeroSpace := SpaceEntity("", "")
  const ZeroApp := AppEntity("", "")
  const ZeroBindings := ServiceBindings([])

  /** The value of a string field, "" when absent. */
  function Field(f: Fields, key: string): string
  {
    if key in f then f[key] else ""
  }

  /** Decoding a body into each record type, as `json` tags name the fields. */
  function DecodeEntity(d: Document): Entity
  {
    Entity(Field(d.entity, "name"))
  }

  function DecodeSpace(d: Document): SpaceEntity
  {
    SpaceEntity(Field(d.entity, "name"), Field(d.entity, "organization_guid"))
  }

  function DecodeApp(d: Document): AppEntity
  {
    AppEntity(Field(d.entity, "name"), Field(d.entity, "space_guid"))
  }

  function DecodeBindings(d: Document): ServiceBindings
  {
    ServiceBindings(seq(|d.resources|, i requires 0 <= i < |d.resources| =>
      ServiceBindingEntity(Field(d.resources[i], "app_guid"))))
  }

  /** The hand-built request paths (cf/cf.go:70, 84, 98, 102). */
  function BindingsPath(instanceId: string): string
  {
    "/v2/service_instances/" + instanceId + "/service_bindings"
  }

  function AppPath(appGuid: string): string
  {
    "/v2/apps/" + appGuid
  }

  function SpacePath(spaceGuid: string): string
  {
    "/v2/spaces/" + spaceGuid
  }

  function OrgPath(orgGuid: string): string
  {
    "/v2/organizations/" + orgGuid
  }

  /** Each kind of path gives back the identifier it was built from, so a
      request names exactly one resource. */
  lemma PathsAreInjective(a: string, b: string)
    ensures BindingsPath(a) == BindingsPath(b) ==> a == b
    ensures AppPath(a) == AppPath(b) ==> a == b
    ensures SpacePath(a) == SpacePath(b) ==> a == b
    ensures OrgPath(a) == OrgPath(b) ==> a == b
  {
    if BindingsPath(a) == BindingsPath(b) {
      var n := |"/v2/service_instances/"|;
      assert |a| == |b|;
      assert BindingsPath(a)[n..n + |a|] == a;
      assert BindingsPath(b)[n..n + |b|] == b;
    }
    if AppPath(a) == AppPath(b) {
      assert AppPath(a)[|"/v2/apps/"|..] == a;
      assert AppPath(b)[|"/v2/apps/"|..] == b;
    }
    if SpacePath(a) == SpacePath(b) {
      assert SpacePath(a)[|"/v2/spaces/"|..] == a;
      assert SpacePath(b)[|"/v2/spaces/"|..] == b;
    }
    if OrgPath(a) == OrgPath(b) {
      assert OrgPath(a)[|"/v2/organizations/"|..] == a;
      assert OrgPath(b)[|"/v2/organizations/"|..] == b;
    }
  }

  /** Paths of different kinds never coincide: the bindings, app, space and
      organization requests of one resolution address four distinct kinds of
      resource, whatever the identifiers. */
  lemma PathKindsAreDisjoint(id: string, app: string, space: string, org: string)
    ensures BindingsPath(id) != AppPath(app) && BindingsPath(id) != SpacePath(space)
    ensures BindingsPath(id) != OrgPath(org) && AppPath(app) != SpacePath(space)
    ensures AppPath(app) != OrgPath(org) && SpacePath(space) != OrgPath(org)
  {
    // The kinds differ at the character after "/v2/" or the one after it.
    assert BindingsPath(id)[4] == 's' && BindingsPath(id)[5] == 'e';
    assert AppPath(app)[4] == 'a';
    assert SpacePath(space)[4] == 's' && SpacePath(space)[5] == 'p';
    assert OrgPath(org)[4] == 'o';
  }
}
