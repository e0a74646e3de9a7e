# Discotron guild state, dashboard WebAPI and logger, in Dafny

This project models three sequential pieces of the Discotron Discord bot and
proves properties of them:

- **Guild configuration** (`guild.dfy`, module `Guilds`). A `Guild` object holds:
  - the set of enabled plugin ids;
  - the set of allowed channel ids;
  - the bot admins and the Discord admins, as sets of `UserRole` entries;
  - a per-plugin `Permission` map;
  - the command prefix.

  A `GuildRegistry` object stands for the static `Guild._guilds` dictionary,
  which maps Discord guild ids to guilds. The rule that needs the most care is
  `setPluginEnabled`, because an empty enabled set is treated specially:
  disabling a plugin fills the set with every other known plugin, and enabling
  one does nothing.
- **Dashboard WebAPI** (`api.dfy`, module `DashboardApi`). The `actions` table
  maps a plugin id and an action name to a handler and the authentication level
  it needs. The module covers:
  - registration, which rejects duplicates and defaults the level to `everyone`;
  - `getWebAPI`, which binds registration to one plugin;
  - the decision `onPost` takes for a request.
- **Logger** (`logger.dfy`, module `Logging`). The module covers:
  - the severity-name table with its aliases;
  - the mutable minimum level and `setSeverity`;
  - the filter that decides whether a message is shown;
  - the one-shorthand-per-severity registration;
  - the rewrite of `**x**` into bright-x-reset and of `__x__` into underline-x-reset.

  The rewrite follows JavaScript's global `replace` with a lazy `(.*?)`: the
  leftmost match is replaced first, the capture is as short as possible, and
  `.` does not match a line terminator.

`wrappers.dfy` holds the `Option` type. `None` usually stands for
JavaScript's `undefined`, with three exceptions:
- In `Guilds.Guild.LoadDiscordAdmins`, the `None` in an entry is the `null`
  a Discord admin entry is built with (bot/classes/guild.js:155, 162).
- In `DashboardApi.WebApi.OnPost`, a `discordUserId` of `None` is the `false`
  the login lookup resolves an unknown app token to (dashboard/backend/api.js:35).
- In `Guilds.GuildRegistry.IsGuildAdmin`, a result of `None` is the TypeError
  that calling `isAdmin` on the `undefined` of an unregistered id throws
  (bot/classes/guild.js:105).

State that the source changes in place is modelled in classes:
- `Guild`, `GuildRegistry`, `WebApi` and `Logger` keep their fields as sets and maps.
- The loops of `setPluginEnabled`, `loadDiscordAdmins` and `isAdmin` are `while`
  loops with invariants.
- The markdown rewrite is a pure function. It is checked against a declarative
  definition of where a lazy match ends (`IsClose`). A partner proof shows that
  undoing one pass (`Restore`) gives back that pass's input, for text without
  escape characters. This covers a single pass only. It does not cover the
  two-pass `Markdown`: after nested markup such as `__**a**__`, the bright code
  lies inside the underlined span, and undoing the passes in turn does not give
  back the input.

Code that this model cannot see becomes inputs:
- `UserRole.describes` is a function parameter.
- The ids of `Plugin.getAll()` are a sequence parameter.
- The Discord client's answer for a guild (its owner id and role list, or none) is a parameter.
- The login lookup of an app token and the owner and guild-admin checks of the
  WebAPI are input values.

The repository also has a database migration runner. Its source file is not
part of this model.

Two behaviours of the code are modelled as written:
- Logging a message of severity `none` while its level passes the filter
  throws. The tag table has no entry for level 5, so `padEnd` is called on
  `undefined`. This is `LogOutcome.Thrown`.
- On an empty enabled set, `isPluginEnabled` is false for every plugin, since
  it is a plain membership test. Disabling the only known plugin leaves the set
  empty (`EmptyEnabledSetScenario`).

## Model

| member | source | states |
|---|---|---|
| `Logging.Level` | core/utils/logger.js:17-25 | a name has a level exactly when it is one of the seven table keys, and every level lies in 1..5; an unknown name yields undefined |
| `Logging.LevelLabel` | core/utils/logger.js:28-33 | levels 1 to 4 have a coloured tag and no other level has one |
| `Logging.SeverityAliases` | core/utils/logger.js:17-25 | `warn` and `warning` both map to 3, `err` and `error` both map to 4 |
| `Logging.SeverityOrder` | core/utils/logger.js:17-25 | debug < info < warning < error < none |
| `Logging.Shown` | core/utils/logger.js:60 | a message passes the filter only when the minimum level is defined, the severity is a table name, and the minimum is at most the severity's level |
| `Logging.UndefinedLevelsHide` | core/utils/logger.js:58-60 | an unknown severity name, or an undefined minimum level, never passes the filter |
| `Logging.RaisingMinimumHidesMore` | core/utils/logger.js:60 | a message shown at a higher minimum level is also shown at any lower one |
| `Logging.NoneMinimumShowsOnlyNone` | core/utils/logger.js:45-47 | with the minimum set to `none`, only messages of severity `none` pass the filter |
| `Logging.CloseUnique` | core/utils/logger.js:63 | the lazy capture started at a position ends at no more than one place |
| `Logging.CloseFrom` | core/utils/logger.js:63 | the lazy `(.*?)` followed by the delimiter ends where the reference definition says: the first delimiter reached without crossing a line terminator; when none exists it finds none |
| `Logging.CloseFromComplete` | core/utils/logger.js:63 | whenever the reference definition has a close, the engine finds exactly that one |
| `Logging.Rewrite` | core/utils/logger.js:63-64 | a string in which the delimiter never occurs is returned unchanged |
| `Logging.RewriteSpan` | core/utils/logger.js:63 | `**x**`, with x holding no line terminator and reaching no earlier delimiter, becomes bright + x + reset, followed by the rewrite of the rest |
| `Logging.RewriteUnclosed` | core/utils/logger.js:63 | an opening delimiter with no close before the next line terminator is kept as it is, and the scan moves on by one character |
| `Logging.Markdown` | core/utils/logger.js:63-64 | the bold pass runs first and the underline pass second; a string with neither `**` nor `__` is unchanged |
| `Logging.MarkFreeUnchanged` | core/utils/logger.js:63-64 | text without the span's character is left alone by that pass |
| `Logging.RestoreRewrite` | core/utils/logger.js:63-64 | on text without escape characters one pass loses nothing: restoring the delimiters gives back the input |
| `Logging.MarkdownExample` | core/utils/logger.js:63-64 | `**hi**` becomes bright + `hi` + reset |
| `Logging.Render` | core/utils/logger.js:61-67 | a string value is rewritten and any other value is passed through unchanged |
| `Logging.Logger.constructor` | core/utils/logger.js:82-89 | the minimum level starts at info (2), and a shorthand is registered for every severity name, forwarding to that name |
| `Logging.Logger.SetSeverity` | core/utils/logger.js:45-47 | the minimum level becomes the table's level for the name, undefined for an unknown name |
| `Logging.Logger.Log` | core/utils/logger.js:57-79 | the message is suppressed exactly when the filter fails, and throws exactly when it passes with severity `none`. Otherwise it prints the level's tag and every value rendered, in order |
| `Logging.Logger.Shorthand` | core/utils/logger.js:85-89 | a shorthand is registered exactly for the severity names, and calling it equals `Logger.log(name, ...v)` |
| `Logging.WarnHidesInfoScenario` | core/utils/logger.js:45-60 | after `setSeverity("warn")` an info message is suppressed |
| `Logging.WarnShowsErrorScenario` | core/utils/logger.js:45-79 | after `setSeverity("warn")` an error message is printed with the `[ERR]` tag and its values rendered |
| `Logging.RenderExample` | core/utils/logger.js:61-67 | the string `**hi**` is rendered as bright + `hi` + reset |
| `DashboardApi.AuthLevelOrDefault` | dashboard/backend/api.js:69 | an omitted authentication level is `everyone`, and a given one is kept |
| `DashboardApi.PropertyKey` | dashboard/backend/api.js:18-24 | an absent `plugin` or `action` is looked up under the key "undefined", and a given name under itself |
| `DashboardApi.AuthLevelCheck` | dashboard/backend/api.js:102-106 | exactly `owner`, `guildAdmin` and `everyone` have a check. `owner` answers with the owner check, `guildAdmin` with the guild-admin check, and `everyone` always passes |
| `DashboardApi.DuplicateMessage` | dashboard/backend/api.js:90 | the error text is fixed character for character: "Action with name ", the action's name, " already exists for plugin ", then the plugin id |
| `DashboardApi.GetWebApi` | dashboard/backend/api.js:67-73 | the returned object is bound to the requested plugin |
| `DashboardApi.WebApi.constructor` | dashboard/backend/api.js:6 | the action table starts empty |
| `DashboardApi.WebApi.Lookup` | dashboard/backend/api.js:24 | an action is found exactly when both its plugin and its name are present |
| `DashboardApi.WebApi.RegisterAction` | dashboard/backend/api.js:83-96 | a new `(plugin, name)` is stored with its handler and level, creating the plugin's table when it is missing. A duplicate returns the thrown message and leaves the table unchanged. No other entry changes |
| `DashboardApi.WebApi.RegisterVia` | dashboard/backend/api.js:67-73 | registering through `getWebAPI(p)` registers under `p`, with the level defaulting to `everyone` |
| `DashboardApi.WebApi.OnPost` | dashboard/backend/api.js:13-49 | an undefined request or body gets no reply. An unregistered plugin or action gets `invalid-action`. A supplied token that resolves to false gets `invalid-app-token`. Otherwise the handler runs with `(data, userId, guildId)` exactly when its level's check passes. An unknown level fails without a reply, a refused check gets `invalid-app-token`, and only an undefined request returns before doing anything (`NoReply`) |
| `DashboardApi.DefaultLevelRunsForAnyone` | dashboard/backend/api.js:24-47 | a handler registered without a level runs for a request with no token. Registering the same pair again is refused |
| `Guilds.Guild.constructor` | bot/classes/guild.js:16-33 | a new guild has empty in-memory state and is recorded in the registry under its id |
| `Guilds.GuildRegistry.Get` | bot/classes/guild.js:40-42 | a guild is returned exactly when its id is registered, and it is the registered one |
| `Guilds.Guild.IsAdmin` | bot/classes/guild.js:81-96 | true exactly when some bot admin or Discord admin entry describes the user |
| `Guilds.GuildRegistry.IsGuildAdmin` | bot/classes/guild.js:104-106 | an unregistered guild id fails, and a registered guild answers with its `isAdmin` |
| `Guilds.Guild.SetAdmins` | bot/classes/guild.js:112-118 | the admin set becomes exactly the given users and roles, each re-tagged with this guild's id |
| `Guilds.Guild.AdminsOfThisGuild` | bot/classes/guild.js:81-96 | on a guild whose entries all carry its id, `isAdmin` answers the same when restricted to entries of this guild |
| `Guilds.Guild.LoadDiscordAdmins` | bot/classes/guild.js:150-166 | when the Discord client knows the guild, the Discord admins become the owner plus exactly one role entry per role with ADMINISTRATOR. When it does not, the set is left empty and the call fails with the TypeError of reading the owner of `undefined` |
| `Guilds.Guild.SetCommandPrefix` | bot/classes/guild.js:173-174 | the prefix becomes the given one |
| `Guilds.Guild.SetAllowedChannelIds` | bot/classes/guild.js:193-194 | the allowed channels become exactly the given ids |
| `Guilds.Guild.IsPluginEnabled` | bot/classes/guild.js:219-221 | true exactly when the plugin is in the enabled set |
| `Guilds.Guild.SetPluginEnabled` | bot/classes/guild.js:228-245 | on an empty set, disabling `p` leaves every known plugin except `p`, and enabling leaves the set empty. On a non-empty set, `p` is added or removed and nothing else changes |
| `Guilds.Guild.OnPluginLoaded` | bot/classes/guild.js:292-294 | the plugin gets an empty permission for this guild |
| `Guilds.Guild.SetPluginPermission` | bot/classes/guild.js:266-267 | the plugin's permission gets the given users and roles. A plugin without a permission fails and changes nothing |
| `Guilds.Guild.OnPluginDeleted` | bot/classes/guild.js:300-303 | the plugin leaves the permission map and the enabled set, and no other entry changes |
| `Guilds.Guild.Delete` | bot/classes/guild.js:395-414 | the guild id leaves the registry, and no other id changes |
| `Guilds.GuildRegistry.constructor` | bot/classes/guild.js:526 | the registry starts empty |
| `Guilds.EmptyEnabledSetScenario` | bot/classes/guild.js:228-245 | disabling one of two known plugins on an empty set enables the other. Disabling the only known plugin leaves the set empty. Construction registers and deletion unregisters |

## Left out

- Database effects in bot/classes/guild.js. This covers the `db.insert`, `db.update`, `db.delete` and `db.select` chains and the `_load*` loaders. They are asynchronous persistence through a CRUD module that is not part of this model. Only the in-memory state is modelled.
- The event subscriptions in the `Guild` constructor, `Guild.toObject`, `Guild.getAll` and `Guild.registerActions`. They are global event plumbing, reads of the Discord client, a plain field read, and handlers that call the modelled setters.
- Guilds.Guild.IsAdmin: JavaScript Sets hold `UserRole` objects by identity. The model holds them as values, so two equal entries count once. This does not change any membership answer.
- Guilds.Guild.LoadDiscordAdmins: the Discord client's guild lookup (`global.discordClient`) is replaced by its result, passed as a parameter. The result is an owner id and a role list, or `None` for a guild the client does not know.
- The base class `GuildModel`, from models/guild.js (bot/classes/guild.js:1, 11, 17), is not part of this model. `Guild` inherits its fields and getters from it. The model assumes two things about it:
  - `super(discordId)` starts a guild with empty plugin, channel and admin sets, an empty permission map and an undefined prefix;
  - the getters `enabledPlugins` and `permissions` return the underlying `_enabledPlugins` and `_permissions` themselves, not copies. `isPluginEnabled` (bot/classes/guild.js:220) and `delete this.permissions[pluginId]` in `onPluginDeleted` (bot/classes/guild.js:301) depend on this.
- `Permission`, from bot/classes/permission.js (bot/classes/guild.js:3), is not part of this model. It is taken to be a plain holder of a guild id, a plugin id and a list of users and roles, which is the `Permission` datatype here.
- The bodies of five functions whose files are not part of this model. Their answers are inputs:
  - `UserRole.describes`, from bot/classes/user-role.js (bot/classes/guild.js:2);
  - `Plugin.getAll`, from bot/classes/plugin.js (bot/classes/guild.js:5);
  - `Login.getDiscordUserId`, from core/login.js (dashboard/backend/api.js:108);
  - `isOwner`, from core/models/owner.js (dashboard/backend/api.js:103);
  - `isGuildAdmin`, from core/models/guild.js (dashboard/backend/api.js:104).
- Guilds.Guild.Delete: the model removes the id at once. The source removes it in the `.then` that runs after the five `db.delete` promises settle (bot/classes/guild.js:396-414). Until then `Guild.get` still returns the guild. A `new Guild(id)` registered in that window is itself removed when the pending delete completes. The model does not capture this asynchronous window.
- Logging.Logger.Shorthand: the other members reachable as `Logger[name]` are not modelled. These are the static `log` and `setSeverity`, and `call`, `apply`, `bind` and `toString` inherited from `Function.prototype`. `Shorthand` answers only for registered shorthands.
- DashboardApi.WebApi.OnPost: the login lookup is modelled as resolving to a user id or to `false`. Any other value it might return is not modelled. The `.catch(console.error)` at dashboard/backend/api.js:48 means three more paths end without a reply, and `Crashed` stands only for an unknown level. These paths are a rejected `Login.getDiscordUserId` promise, an exception thrown by the handler, and an exception thrown by the owner or guild-admin check. The model takes the check results as plain booleans and the handler as an opaque value, so it cannot express them.
- The reply through the Express response, the JSON serialisation, the `Logger.warn` and `Logger.debug` calls in dashboard/backend/api.js, and `registerActions` loading endpoint files. These are HTTP, console and file-system I/O.
- Property keys inherited from `Object.prototype`, such as `toString` used as a plugin, action or level name. They would be found on the prototype. The model's tables hold only their own keys.
- The logger's date formatting, `padEnd` layout, colour reset and `console.log` output. These are locale-dependent console I/O. `Log` returns the tag and the rendered values that would be printed.
- The dashboard's navigation controller, the database helper and the repository model. They are UI rendering, sqlite and file I/O, and a plain data holder.
