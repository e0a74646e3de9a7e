/**
 * The in-memory configuration of a Discord guild (bot/classes/guild.js):
 * enabled plugins, allowed channels, bot admins and Discord admins, per-plugin
 * permissions and the command prefix, with the static registry of guilds by
 * Discord id. The database writes every setter starts are not modelled.
 */
module Guilds {
  import opened Wrappers

  /** A user or a role of one guild, as `UserRole` holds them. */
  datatype UserRole = UserRole(discordUserId: Option<string>, discordRoleId: Option<string>, discordGuildId: string)

  /** The users and roles allowed to use one plugin on one guild. */
  datatype Permission = Permission(discordGuildId: string, pluginId: string, usersRoles: seq<UserRole>)

  /** A role as the Discord client reports it: its id and whether it has ADMINISTRATOR. */
  datatype DiscordRole = DiscordRole(id: string, isAdministrator: bool)

  /** A guild as the Discord client reports it: its owner's id and its roles. */
  datatype DiscordGuild = DiscordGuild(ownerId: string, roles: seq<DiscordRole>)

  /** A guild, as the one object the source keeps per Discord guild id. */
  class Guild {
    const discordId: string
    var commandPrefix: Option<string>
    var enabledPlugins: set<string>
    var allowedChannelIds: set<string>
    var admins: set<UserRole>
    var discordAdmins: set<UserRole>
    var permissions: map<string, Permission>

    /** Every admin entry carries this guild's id, and each permission belongs to its key's plugin. */
    ghost predicate Valid()
      reads this
    {
      (forall a :: a in admins ==> a.discordGuildId == discordId) &&
      (forall a :: a in discordAdmins ==> a.discordGuildId == discordId) &&
      (forall p :: p in permissions ==> permissions[p].pluginId == p && permissions[p].discordGuildId == discordId)
    }

    /**
     * `new Guild(discordId)`: empty state (the loads from the database are not
     * modelled) and the guild recorded in the registry under its id.
     */
    constructor (discordId: string, registry: GuildRegistry)
      modifies registry
      ensures Valid() && this.discordId == discordId
      ensures commandPrefix.None? && enabledPlugins == {} && allowedChannelIds == {}
      ensures admins == {} && discordAdmins == {} && permissions == map[]
      ensures registry.guilds == old(registry.guilds)[discordId := this]
    {
      this.discordId := discordId;
      commandPrefix := None;
      enabledPlugins := {};
      allowedChannelIds := {};
      admins := {};
      discordAdmins := {};
      permissions := map[];
      new;
      registry.guilds := registry.guilds[discordId := this];
    }

    /**
     * `describes(a, u)` is the answer of `UserRole.describes` of entry `a`
     * for user `u`, whose code is outside this model.
     */
    ghost predicate HasAdmin(discordUserId: string, describes: (UserRole, string) -> bool)
      reads this
    {
      (exists a :: a in admins && describes(a, discordUserId)) ||
      (exists a :: a in discordAdmins && describes(a, discordUserId))
    }

    /** `isAdmin`: some bot admin or Discord admin entry describes the user. */
    method IsAdmin(discordUserId: string, describes: (UserRole, string) -> bool) returns (r: bool)
      ensures r == HasAdmin(discordUserId, describes)
    {
      r := false;
      var rest := admins;
      while rest != {}
        invariant rest <= admins
        invariant r <==> exists a :: a in admins - rest && describes(a, discordUserId)
        decreases rest
      {
        var a :| a in rest;
        if describes(a, discordUserId) {
          r := true;
        }
        rest := rest - {a};
      }
      rest := discordAdmins;
      while rest != {}
        invariant rest <= discordAdmins
        invariant r <==>
          (exists a :: a in admins && describes(a, discordUserId)) ||
          (exists a :: a in discordAdmins - rest && describes(a, discordUserId))
        decreases rest
      {
        var a :| a in rest;
        if describes(a, discordUserId) {
          r := true;
        }
        rest := rest - {a};
      }
    }

    /**
     * On a valid guild, every admin entry that describes a user carries this
     * guild's id: `isAdmin` never answers from another guild's entries.
     */
    lemma AdminsOfThisGuild(discordUserId: string, describes: (UserRole, string) -> bool)
      requires Valid()
      ensures HasAdmin(discordUserId, describes) <==>
        HasAdmin(discordUserId, (a: UserRole, u: string) => a.discordGuildId == discordId && describes(a, u))
    {
    }

    /** The `admins` setter: the given users and roles, each re-tagged with this guild's id. */
    method SetAdmins(usersRoles: seq<UserRole>)
      requires Valid()
      modifies this`admins
      ensures Valid()
      ensures admins == set ur | ur in usersRoles :: UserRole(ur.discordUserId, ur.discordRoleId, discordId)
    {
      admins := set ur | ur in usersRoles :: UserRole(ur.discordUserId, ur.discordRoleId, discordId);
    }

    /**
     * `loadDiscordAdmins`: the owner, and one role entry per role with
     * ADMINISTRATOR. `client` is what the Discord client's lookup of this
     * guild's id returns; an unknown guild (`None`) makes reading its owner
     * throw a TypeError (`ok` false) after the set has been emptied.
     */
    method LoadDiscordAdmins(client: Option<DiscordGuild>) returns (ok: bool)
      requires Valid()
      modifies this`discordAdmins
      ensures Valid()
      ensures ok <==> client.Some?
      ensures !ok ==> discordAdmins == {}
      ensures ok ==> (discordAdmins ==
        {UserRole(Some(client.value.ownerId), None, discordId)} +
        set role | role in client.value.roles && role.isAdministrator :: UserRole(None, Some(role.id), discordId))
    {
      discordAdmins := {};
      if client.None? {
        return false;
      }
      var ownerId := client.value.ownerId;
      var roles := client.value.roles;
      discordAdmins := {UserRole(Some(ownerId), None, discordId)};
      var i := 0;
      while i < |roles|
        invariant 0 <= i <= |roles|
        invariant discordAdmins ==
          {UserRole(Some(ownerId), None, discordId)} +
          set role | role in roles[..i] && role.isAdministrator :: UserRole(None, Some(role.id), discordId)
      {
        var role := roles[i];
        assert roles[..i + 1] == roles[..i] + [role];
        if role.isAdministrator {
          discordAdmins := discordAdmins + {UserRole(None, Some(role.id), discordId)};
        }
        i := i + 1;
      }
      assert roles[..i] == roles;
      ok := true;
    }

    /** The `commandPrefix` setter. */
    method SetCommandPrefix(prefix: string)
      modifies this`commandPrefix
      ensures commandPrefix == Some(prefix)
    {
      commandPrefix := Some(prefix);
    }

    /** The `allowedChannelIds` setter: exactly the given channels. */
    method SetAllowedChannelIds(discordChannelIds: seq<string>)
      modifies this`allowedChannelIds
      ensures allowedChannelIds == set c | c in discordChannelIds
    {
      allowedChannelIds := set c | c in discordChannelIds;
    }

    /** `isPluginEnabled`. */
    function IsPluginEnabled(pluginId: string): (r: bool)
      reads this
      ensures r <==> pluginId in enabledPlugins
    {
      pluginId in enabledPlugins
    }

    /**
     * `setPluginEnabled(pluginId, enabled)`, with the ids of `Plugin.getAll()`
     * given as `knownPluginIds`. An empty set is treated specially: disabling
     * a plugin fills it with every other known plugin, enabling one does
     * nothing.
     */
    method SetPluginEnabled(pluginId: string, enabled: bool, knownPluginIds: seq<string>)
      modifies this`enabledPlugins
      ensures old(enabledPlugins) == {} && !enabled ==>
        enabledPlugins == (set q | q in knownPluginIds) - {pluginId}
      ensures old(enabledPlugins) == {} && enabled ==> enabledPlugins == {}
      ensures old(enabledPlugins) != {} && enabled ==> enabledPlugins == old(enabledPlugins) + {pluginId}
      ensures old(enabledPlugins) != {} && !enabled ==> enabledPlugins == old(enabledPlugins) - {pluginId}
    {
      if |enabledPlugins| == 0 {
        if !enabled {
          var i := 0;
          while i < |knownPluginIds|
            invariant 0 <= i <= |knownPluginIds|
            invariant enabledPlugins == (set q | q in knownPluginIds[..i]) - {pluginId}
          {
            var other := knownPluginIds[i];
            assert knownPluginIds[..i + 1] == knownPluginIds[..i] + [other];
            if pluginId != other {
              enabledPlugins := enabledPlugins + {other};
            }
            i := i + 1;
          }
          assert knownPluginIds[..i] == knownPluginIds;
        }
      } else {
        if enabled {
          enabledPlugins := enabledPlugins + {pluginId};
        } else {
          enabledPlugins := enabledPlugins - {pluginId};
        }
      }
    }

    /** `onPluginLoaded`, in memory: an empty permission for the plugin (the database load is not modelled). */
    method OnPluginLoaded(pluginId: string)
      requires Valid()
      modifies this`permissions
      ensures Valid()
      ensures permissions == old(permissions)[pluginId := Permission(discordId, pluginId, [])]
    {
      permissions := permissions[pluginId := Permission(discordId, pluginId, [])];
    }

    /** `setPluginPermission`, in memory; `false` is the TypeError of a plugin without a permission. */
    method SetPluginPermission(pluginId: string, usersRoles: seq<UserRole>) returns (ok: bool)
      requires Valid()
      modifies this`permissions
      ensures Valid()
      ensures ok <==> pluginId in old(permissions)
      ensures ok ==> permissions == old(permissions)[pluginId := old(permissions)[pluginId].(usersRoles := usersRoles)]
      ensures !ok ==> permissions == old(permissions)
    {
      if pluginId !in permissions {
        return false;
      }
      permissions := permissions[pluginId := permissions[pluginId].(usersRoles := usersRoles)];
      ok := true;
    }

    /** `onPluginDeleted`: the plugin leaves both the permissions and the enabled set. */
    method OnPluginDeleted(pluginId: string)
      requires Valid()
      modifies this`permissions, this`enabledPlugins
      ensures Valid()
      ensures permissions == old(permissions) - {pluginId}
      ensures enabledPlugins == old(enabledPlugins) - {pluginId}
    {
      permissions := permissions - {pluginId};
      enabledPlugins := enabledPlugins - {pluginId};
    }

    /** `delete`, in memory: whatever guild is registered under this id leaves the registry. */
    method Delete(registry: GuildRegistry)
      modifies registry
      ensures registry.guilds == old(registry.guilds) - {discordId}
    {
      registry.guilds := registry.guilds - {discordId};
    }
  }

  /** The static `Guild._guilds` dictionary. */
  class GuildRegistry {
    var guilds: map<string, Guild>

    constructor ()
      ensures guilds == map[]
    {
      guilds := map[];
    }

    /** `Guild.get(discordId)`; `None` is `undefined`. */
    function Get(discordId: string): (r: Option<Guild>)
      reads this
      ensures r.Some? <==> discordId in guilds
      ensures r.Some? ==> r.value == guilds[discordId]
    {
      if discordId in guilds then Some(guilds[discordId]) else None
    }

    /** `Guild.isGuildAdmin`; `None` is the TypeError of an unregistered guild id. */
    method IsGuildAdmin(discordUserId: string, discordGuildId: string, describes: (UserRole, string) -> bool)
      returns (r: Option<bool>)
      ensures r.Some? <==> discordGuildId in guilds
      ensures r.Some? ==> r.value == guilds[discordGuildId].HasAdmin(discordUserId, describes)
    {
      if discordGuildId !in guilds {
        return None;
      }
      var admin := guilds[discordGuildId].IsAdmin(discordUserId, describes);
      r := Some(admin);
    }
  }

  /**
   * The special case of the empty enabled set: disabling one of two known
   * plugins enables the other, but disabling the only known plugin leaves the
   * set empty, so that plugin still reads as not enabled.
   */
  method EmptyEnabledSetScenario() returns (otherEnabled: bool, soleStillEmpty: bool, registered: bool, deleted: bool)
    ensures otherEnabled && soleStillEmpty && registered && deleted
  {
    var registry := new GuildRegistry();
    var g := new Guild("1", registry);
    registered := registry.Get("1") == Some(g);
    g.SetPluginEnabled("music", false, ["music", "poll"]);
    otherEnabled := g.IsPluginEnabled("poll") && !g.IsPluginEnabled("music");
    var h := new Guild("2", registry);
    h.SetPluginEnabled("music", false, ["music"]);
    soleStillEmpty := h.enabledPlugins == {};
    g.Delete(registry);
    deleted := registry.Get("1").None? && registry.Get("2") == Some(h);
  }
}
