/** The catalog entity provider MTAProvider: each run fetches the hub's
    applications and hands the catalog a full mutation holding one Component
    entity per application, then asks it to refresh those entities. The hub's
    answer and the catalog's acceptance of the mutation are inputs. */
module Provider {

  /** A hub application, as far as the provider reads it. */
  datatype Application = Application(id: nat, name: string)

  /** The parsed body of the hub's `/applications` answer. */
  datatype Json = JsonArray(applications: seq<Application>) | JsonOther

  datatype HubResponse = HubResponse(status: int, body: Json)

  datatype Metadata = Metadata(
    annotations: map<string, string>,
    name: string,
    id: nat,
    namespace: string,
    application: Application)

  datatype ComponentSpec = ComponentSpec(componentType: string, lifecycle: string, owner: string)

  datatype Entity = Entity(apiVersion: string, kind: string, metadata: Metadata, spec: ComponentSpec)

  /** An entity handed to the catalog, with its key and location key. */
  datatype DeferredEntity = DeferredEntity(key: nat, locationKey: string, entity: Entity)

  datatype Mutation = Mutation(mutationType: string, entities: seq<DeferredEntity>)

  /** How `run` ends. */
  datatype RunOutcome = Completed | Threw(message: string)

  /** `getProviderName()`. */
  const ProviderName: string := "MTAProvider"

  const ManagedByLocation: string := "backstage.io/managed-by-location"
  const ManagedByOriginLocation: string := "backstage.io/managed-by-origin-location"

  /** `name.replace(/ /g, '-')`: every space becomes a hyphen. */
  function EntityName(name: string): (r: string)
    ensures |r| == |name|
    ensures forall i :: 0 <= i < |name| ==> r[i] == if name[i] == ' ' then '-' else name[i]
    ensures ' ' !in r
  {
    if name == [] then []
    else [if name[0] == ' ' then '-' else name[0]] + EntityName(name[1..])
  }

  function DigitChar(d: nat): char
    requires d < 10
  {
    "0123456789"[d]
  }

  /** The decimal text of an id, as a template string renders a number. */
  function Decimal(n: nat): string
  {
    if n < 10 then [DigitChar(n)] else Decimal(n / 10) + [DigitChar(n % 10)]
  }

  /** `url:{baseUrl}/application/{id}`. */
  function ApplicationLocation(baseUrl: string, id: nat): string
  {
    "url:" + baseUrl + "/application/" + Decimal(id)
  }

  /** The entity one application becomes (the body of the `j.map` callback). */
  function ToEntity(baseUrl: string, app: Application): DeferredEntity
  {
    var location := ApplicationLocation(baseUrl, app.id);
    DeferredEntity(
      app.id,
      ProviderName,
      Entity(
        "backstage.io/v1alpha1",
        "Component",
        Metadata(
          map[ManagedByLocation := location, ManagedByOriginLocation := location],
          EntityName(app.name),
          app.id,
          "default",
          app),
        ComponentSpec("service", "experimental", "unknown")))
  }

  /** `j.map(application => ...)`: the entities of the mutation. */
  function Entities(baseUrl: string, apps: seq<Application>): seq<DeferredEntity>
  {
    if apps == [] then [] else [ToEntity(baseUrl, apps[0])] + Entities(baseUrl, apps[1..])
  }

  /** `j.map(application => application.id)`: the keys of the refresh. */
  function RefreshKeys(apps: seq<Application>): seq<nat>
  {
    if apps == [] then [] else [apps[0].id] + RefreshKeys(apps[1..])
  }

  /** One entity per application, in input order. */
  lemma {:induction false} EntitiesInOrder(baseUrl: string, apps: seq<Application>)
    ensures |Entities(baseUrl, apps)| == |apps|
    ensures forall i :: 0 <= i < |apps| ==> Entities(baseUrl, apps)[i] == ToEntity(baseUrl, apps[i])
  {
    if apps != [] {
      EntitiesInOrder(baseUrl, apps[1..]);
    }
  }

  /** The fixed fields of every entity: key and id from the application,
      the provider's location key, namespace `default`, a space-free name,
      both managed-by annotations pointing at the application, and the
      fixed Component spec. */
  lemma EntityFields(baseUrl: string, apps: seq<Application>, i: int)
    requires 0 <= i < |apps|
    ensures i < |Entities(baseUrl, apps)|
    ensures var e := Entities(baseUrl, apps)[i];
      && e.key == apps[i].id
      && e.locationKey == "MTAProvider"
      && e.entity.kind == "Component"
      && e.entity.metadata.id == apps[i].id
      && e.entity.metadata.namespace == "default"
      && e.entity.metadata.application == apps[i]
      && e.entity.metadata.name == EntityName(apps[i].name)
      && ' ' !in e.entity.metadata.name
      && |e.entity.metadata.name| == |apps[i].name|
      && e.entity.metadata.annotations ==
           map[ManagedByLocation := ApplicationLocation(baseUrl, apps[i].id),
               ManagedByOriginLocation := ApplicationLocation(baseUrl, apps[i].id)]
      && e.entity.spec == ComponentSpec("service", "experimental", "unknown")
  {
    EntitiesInOrder(baseUrl, apps);
  }

  /** The refresh asks for exactly the keys of the mutation's entities, in
      the same order. */
  lemma {:induction false} RefreshKeysMatchEntities(baseUrl: string, apps: seq<Application>)
    ensures |RefreshKeys(apps)| == |Entities(baseUrl, apps)| == |apps|
    ensures forall i :: 0 <= i < |apps| ==>
      RefreshKeys(apps)[i] == Entities(baseUrl, apps)[i].key == apps[i].id
  {
    if apps != [] {
      RefreshKeysMatchEntities(baseUrl, apps[1..]);
    }
  }

  /** The catalog's side of an entity-provider connection: the mutations it
      has accepted and the refreshes it has been asked for. */
  class Connection {
    var mutations: seq<Mutation>
    var refreshes: seq<seq<nat>>

    constructor ()
      ensures mutations == [] && refreshes == []
    {
      mutations, refreshes := [], [];
    }

    /** `applyMutation`; `accepted` is whether the catalog's promise resolves. */
    method ApplyMutation(m: Mutation, accepted: bool) returns (ok: bool)
      modifies this
      ensures ok == accepted
      ensures mutations == old(mutations) + (if accepted then [m] else [])
      ensures refreshes == old(refreshes)
    {
      if accepted {
        mutations := mutations + [m];
      }
      ok := accepted;
    }

    /** `refresh({keys})`. */
    method Refresh(keys: seq<nat>)
      modifies this
      ensures refreshes == old(refreshes) + [keys]
      ensures mutations == old(mutations)
    {
      refreshes := refreshes + [keys];
    }
  }

  class MTAProvider {
    /** The configured hub base URL (`mta.url`). */
    const baseUrl: string
    var connection: Connection?

    constructor (baseUrl: string)
      ensures this.baseUrl == baseUrl && connection == null
    {
      this.baseUrl := baseUrl;
      connection := null;
    }

    /** `run`: throws without a connection; returns early on a non-200 hub
        answer or a body that is not an array; otherwise applies one full
        mutation and, only once it is accepted, refreshes the same keys. */
    method Run(hub: HubResponse, accepted: bool) returns (outcome: RunOutcome)
      modifies connection
      ensures connection == old(connection)
      ensures connection == null ==> outcome == Threw("Not initialized")
      ensures connection != null ==>
        && outcome == Completed
        && if hub.status != 200 || !hub.body.JsonArray? then
             && connection.mutations == old(connection.mutations)
             && connection.refreshes == old(connection.refreshes)
           else
             var apps := hub.body.applications;
             && connection.mutations == old(connection.mutations) +
                  (if accepted then [Mutation("full", Entities(baseUrl, apps))] else [])
             && connection.refreshes == old(connection.refreshes) +
                  (if accepted then [RefreshKeys(apps)] else [])
    {
      if connection == null {
        return Threw("Not initialized");
      }
      if hub.status != 200 {
        return Completed;
      }
      if !hub.body.JsonArray? {
        return Completed;
      }
      var j := hub.body.applications;
      var ok := connection.ApplyMutation(Mutation("full", Entities(baseUrl, j)), accepted);
      if ok {
        connection.Refresh(RefreshKeys(j));
      }
      outcome := Completed;
    }

    /** `connect`: keep the connection, then run once. */
    method Connect(c: Connection, hub: HubResponse, accepted: bool) returns (outcome: RunOutcome)
      modifies this, c
      ensures connection == c && outcome == Completed
      ensures if hub.status != 200 || !hub.body.JsonArray? then
          c.mutations == old(c.mutations) && c.refreshes == old(c.refreshes)
        else
          var apps := hub.body.applications;
          && c.mutations == old(c.mutations) +
               (if accepted then [Mutation("full", Entities(baseUrl, apps))] else [])
          && c.refreshes == old(c.refreshes) + (if accepted then [RefreshKeys(apps)] else [])
    {
      connection := c;
      outcome := Run(hub, accepted);
    }
  }
}
