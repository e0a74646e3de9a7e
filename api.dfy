/**
 * The dashboard's WebAPI (dashboard/backend/api.js): a two-level table from
 * plugin id and action name to a handler with the authentication level it
 * needs, the registration of handlers, and the decision `onPost` takes for a
 * request. Handlers are opaque values of type `A`.
 */
module DashboardApi {
  import opened Wrappers

  /** What the table holds for one action. */
  datatype Entry<A> = Entry(action: A, authLevel: string)

  /** The object `getWebAPI(pluginId)` returns: a `registerAction` bound to the plugin. */
  datatype PluginWebApi = PluginWebApi(pluginId: string)

  /** Outcome of a registration: stored, or the error thrown for a duplicate. */
  datatype Registration = Registered | Duplicate(message: string)

  /** The body of a POST to `/api`; an absent field is `None`. */
  datatype Body = Body(
    plugin: Option<string>,
    action: Option<string>,
    data: string,
    appToken: Option<string>,
    discordGuildId: Option<string>)

  /**
   * What `onPost` does with a request: nothing, a JSON reply, running the
   * handler with its four arguments, or a TypeError raised inside the promise
   * (logged to the console, no reply), which an unknown authentication level causes.
   */
  datatype PostOutcome<A> =
    | NoReply
    | Replied(message: string)
    | Ran(action: A, data: string, discordUserId: Option<string>, discordGuildId: Option<string>)
    | Crashed

  const InvalidAction: string := "invalid-action"
  const InvalidAppToken: string := "invalid-app-token"

  /** The authentication level an omitted argument defaults to. */
  const Everyone: string := "everyone"

  /** A JavaScript default parameter: `undefined` becomes `"everyone"`. */
  function AuthLevelOrDefault(authLevel: Option<string>): (r: string)
    ensures authLevel.None? ==> r == Everyone
    ensures authLevel.Some? ==> r == authLevel.value
  {
    match authLevel
    case None => Everyone
    case Some(level) => level
  }

  /** An object property key: an `undefined` key reads as the string "undefined". */
  function PropertyKey(key: Option<string>): (r: string)
    ensures key.Some? ==> r == key.value
    ensures key.None? ==> r == "undefined"
  {
    match key
    case None => "undefined"
    case Some(k) => k
  }

  /**
   * `authLevelCheck[level](...)`: the owner and guild-admin checks live in
   * modules outside this model, so their answers for this request are inputs;
   * `everyone` always passes, and any other level has no check (`None`).
   */
  function AuthLevelCheck(level: string, isOwner: bool, isGuildAdmin: bool): (r: Option<bool>)
    ensures r.Some? <==> level in {"owner", "guildAdmin", Everyone}
    ensures level == "owner" ==> r == Some(isOwner)
    ensures level == "guildAdmin" ==> r == Some(isGuildAdmin)
    ensures level == Everyone ==> r == Some(true)
  {
    if level == "owner" then Some(isOwner)
    else if level == "guildAdmin" then Some(isGuildAdmin)
    else if level == Everyone then Some(true)
    else None
  }

  /** The text of the error a duplicate registration throws. */
  function DuplicateMessage(pluginId: string, name: string): (r: string)
    ensures |r| == 17 + |name| + 27 + |pluginId|
    ensures r[..17] == "Action with name "
    ensures r[17..17 + |name|] == name
    ensures r[17 + |name|..17 + |name| + 27] == " already exists for plugin "
    ensures r[|r| - |pluginId|..] == pluginId
  {
    "Action with name " + name + " already exists for plugin " + pluginId
  }

  /** `getWebAPI(pluginId)`. */
  function GetWebApi(pluginId: string): (r: PluginWebApi)
    ensures r.pluginId == pluginId
  {
    PluginWebApi(pluginId)
  }

  /** The module-level `actions` table. */
  class WebApi<A> {
    var actions: map<string, map<string, Entry<A>>>

    constructor ()
      ensures actions == map[]
    {
      actions := map[];
    }

    /** `actions[pluginId][name]`, undefined when either level is missing. */
    function Lookup(pluginId: string, name: string): (r: Option<Entry<A>>)
      reads this
      ensures r.Some? <==> pluginId in actions && name in actions[pluginId]
      ensures r.Some? ==> r.value == actions[pluginId][name]
    {
      if pluginId in actions && name in actions[pluginId] then Some(actions[pluginId][name]) else None
    }

    /**
     * `registerAction(pluginId, name, action, authLevel)`: creates the plugin's
     * table when missing and stores the entry; an existing entry makes it throw
     * and leaves the table as it was.
     */
    method RegisterAction(pluginId: string, name: string, action: A, authLevel: Option<string>)
      returns (r: Registration)
      modifies this
      ensures old(Lookup(pluginId, name)).Some? ==>
        r == Duplicate(DuplicateMessage(pluginId, name)) && actions == old(actions)
      ensures old(Lookup(pluginId, name)).None? ==> r == Registered
      ensures old(Lookup(pluginId, name)).None? ==>
        Lookup(pluginId, name) == Some(Entry(action, AuthLevelOrDefault(authLevel)))
      ensures forall p, n :: (p, n) != (pluginId, name) ==> Lookup(p, n) == old(Lookup(p, n))
      ensures actions.Keys == old(actions.Keys) + {pluginId}
    {
      if pluginId !in actions {
        actions := actions[pluginId := map[]];
      }
      if name in actions[pluginId] {
        return Duplicate(DuplicateMessage(pluginId, name));
      }
      actions := actions[pluginId := actions[pluginId][name := Entry(action, AuthLevelOrDefault(authLevel))]];
      r := Registered;
    }

    /** `getWebAPI(pluginId).registerAction(name, action, authLevel)`. */
    method RegisterVia(api: PluginWebApi, name: string, action: A, authLevel: Option<string>)
      returns (r: Registration)
      modifies this
      ensures old(Lookup(api.pluginId, name)).Some? ==>
        r == Duplicate(DuplicateMessage(api.pluginId, name)) && actions == old(actions)
      ensures old(Lookup(api.pluginId, name)).None? ==>
        r == Registered && Lookup(api.pluginId, name) == Some(Entry(action, AuthLevelOrDefault(authLevel)))
      ensures forall p, n :: (p, n) != (api.pluginId, name) ==> Lookup(p, n) == old(Lookup(p, n))
    {
      r := RegisterAction(api.pluginId, name, action, Some(AuthLevelOrDefault(authLevel)));
    }

    /** The entry a request body names, if it is registered. */
    function Target(body: Body): Option<Entry<A>>
      reads this
    {
      Lookup(PropertyKey(body.plugin), PropertyKey(body.action))
    }

    /**
     * `onPost(req, res)`. `request` is `None` when the request or its body is
     * undefined. `discordUserId` is what the login lookup resolved the app
     * token to, `None` standing for `false`; `isOwner` and `isGuildAdmin` are
     * the answers of the two checks outside this model for that user and guild.
     */
    method OnPost(request: Option<Body>, discordUserId: Option<string>, isOwner: bool, isGuildAdmin: bool)
      returns (o: PostOutcome<A>)
      ensures o.NoReply? <==> request.None?
      ensures request.Some? && Target(request.value).None? ==> o == Replied(InvalidAction)
      ensures (request.Some? && Target(request.value).Some? &&
               request.value.appToken.Some? && discordUserId.None?) ==> o == Replied(InvalidAppToken)
      ensures o.Ran? <==>
        request.Some? && Target(request.value).Some? &&
        (request.value.appToken.None? || discordUserId.Some?) &&
        AuthLevelCheck(Target(request.value).value.authLevel, isOwner, isGuildAdmin) == Some(true)
      ensures o.Ran? ==>
        o == Ran(Target(request.value).value.action, request.value.data, discordUserId, request.value.discordGuildId)
      ensures o.Crashed? <==>
        request.Some? && Target(request.value).Some? &&
        (request.value.appToken.None? || discordUserId.Some?) &&
        AuthLevelCheck(Target(request.value).value.authLevel, isOwner, isGuildAdmin).None?
      ensures (request.Some? && Target(request.value).Some? &&
               (request.value.appToken.None? || discordUserId.Some?) &&
               AuthLevelCheck(Target(request.value).value.authLevel, isOwner, isGuildAdmin) == Some(false)) ==>
              o == Replied(InvalidAppToken)
      ensures o.Replied? ==> o.message == InvalidAction || o.message == InvalidAppToken
    {
      if request.None? {
        return NoReply;
      }
      var body := request.value;
      var plugin := PropertyKey(body.plugin);
      var action := PropertyKey(body.action);
      if plugin !in actions || action !in actions[plugin] {
        return Replied(InvalidAction);
      }
      var response := actions[plugin][action];
      if body.appToken.Some? && discordUserId.None? {
        o := Replied(InvalidAppToken);
      } else {
        var granted := AuthLevelCheck(response.authLevel, isOwner, isGuildAdmin);
        if granted.None? {
          o := Crashed;
        } else if granted.value {
          o := Ran(response.action, body.data, discordUserId, body.discordGuildId);
        } else {
          o := Replied(InvalidAppToken);
        }
      }
    }
  }

  /**
   * A handler registered through `getWebAPI` without a level runs for a
   * request that names it and carries no app token, whoever sends it.
   */
  method DefaultLevelRunsForAnyone<A>(action: A, isOwner: bool, isGuildAdmin: bool)
    returns (first: Registration, second: Registration, o: PostOutcome<A>)
    ensures first == Registered
    ensures second == Duplicate(DuplicateMessage("greeter", "hello"))
    ensures o == Ran(action, "{}", None, Some("42"))
  {
    var api := new WebApi<A>();
    first := api.RegisterVia(GetWebApi("greeter"), "hello", action, None);
    second := api.RegisterAction("greeter", "hello", action, Some("owner"));
    o := api.OnPost(Some(Body(Some("greeter"), Some("hello"), "{}", None, Some("42"))), None, isOwner, isGuildAdmin);
  }
}
