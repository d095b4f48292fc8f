# QuickVids interactions core, modelled in Dafny

QuickVids is a Discord bot that answers Discord *interactions* over HTTP. Its core is
modelled here:

- **The server's routing decision.** Every POST to `/interactions` is authenticated,
  answered, or handed to the client.
- **The client.**
  - It loads the extensions' commands and component callbacks.
  - It splits commands into a global list and per-guild lists.
  - It compares each list with what Discord has registered and pushes the list when it
    changed.
  - It routes slash commands, context-menu commands, autocomplete requests, buttons and
    modals to their handlers.
- **The interaction contexts.** These are the objects a handler replies through: reply,
  defer, modal, friendly error, and edit of the original message.
- **The helper functions.** These cover permission bitmasks, user tags and avatar URLs, deep
  equality and copy, title case, query parameters, description cleaning, favourites and the
  premium check.
- **The extensions.**
  - The TikTok/Instagram embed commands and their favourite, unfavourite and delete buttons.
  - The gateway helper.
  - Magic Mentions: linking a TikTok account, verifying it by a code in the bio, and
    enabling it per guild.
  - The personal usage-data settings.

Each source file becomes one module: `Server`, `Client`, `Contexts`, `Commands`,
`Extensions`, `Functions`, `Embed`, `TikTok`, `GatewayHelper`, `MagicMention` and
`PersonalSettings`. They are supported by small value modules: `Wrappers`, `Bits`, `Text`,
`Json`, `OrderedMaps`, `Partition` and `Discord`.

Objects whose fields the source updates in place are classes:
- the client;
- the five contexts, each with a `sent` log of what went to Discord;
- an extension prototype;
- a user account;
- the Magic Mention collection;
- the embed-log collection.

Network, database and crypto results enter as parameters: an HTTP answer, a fetched document,
whether a signature verified, a SHA-256 digest, a base64 decoding. A handler's own run is an
oracle that either returns or throws.

## Model

| member | source | states |
|---|---|---|
| Server.RouteRequest | src/classes/Server.ts:62-143 | No client gives a 401 "Invalid request". A bad signature gives a 401 "Invalid signature". A ping is answered with Pong. A chat-input command is dispatched as a slash command; a user or message command as a context-menu command. Autocomplete goes to its handler. Each of these holds if and only if its condition does. |
| Server.DispatchNeedsSignature | src/classes/Server.ts:76-93 | No handler runs, and no Pong is sent, unless the client exists and the signature verified. |
| Server.ComponentsAndModalsIgnored | src/classes/Server.ts:124-142 | With the component branch switched off, button presses and modal submissions reach no handler. |
| Server.SubtypeOnlyForCommands | src/classes/Server.ts:95-123 | The command subtype changes the route only for application commands. |
| Client.UnexpectedErrorNamesCode | src/classes/Client.ts:151-156 | The unexpected-error reply carries its error code hDFPRERTpb. |
| Client.RouteCommand | src/classes/Client.ts:136-158 | An unknown interaction command crashes. A name with no command file ends silently. Otherwise the first command with that name is run through its callback. |
| Client.ContextCommandFound | src/classes/Client.ts:136-146 | A context built from the client's own command list never reaches the "no command file" branch. It crashes exactly when no command has the name. |
| Client.Client.constructor | src/classes/Client.ts:66-85 | A new client has no commands, no component callbacks and no registered commands. |
| Client.Client.GetCommand | src/classes/Client.ts:476-478 | Returns the first command with the name, or nothing if and only if no command has it. |
| Client.Client.GetComponentCallback | src/classes/Client.ts:480-482 | Returns the first callback whose custom-id pattern matches, or nothing if and only if none matches. |
| Client.Client.HandleSlashCommand | src/classes/Client.ts:136-158 | Routes as RouteCommand does. A `defer` call made by the callback sends the deferred response and marks the context deferred. When the callback throws, exactly one ephemeral unexpected-error reply is sent. It is a follow-up exactly when the context is deferred by then, whether before the callback ran or by the callback itself. |
| Client.Client.HandleMenuCommand | src/classes/Client.ts:136-158 | The same routing for context-menu commands. A throwing callback gets one ephemeral unexpected-error response. |
| Client.Client.HandleAutocomplete | src/classes/Client.ts:160-173 | Finds the command named by the interaction. It logs "no command file" if and only if no command has that name. |
| Client.Client.HandleComponent | src/classes/Client.ts:175-200 | Runs the callback of the first matching pattern. The request is unhandled if and only if no pattern matches or the match has no callback. |
| Client.Client.HandleButton | src/classes/Client.ts:175-187 | The button routing: the first match's callback runs, otherwise the press is unhandled. |
| Client.Client.HandleModal | src/classes/Client.ts:188-200 | The modal routing: the first match's callback runs, otherwise the submission is unhandled. |
| Client.Client.AreObjectsEqual | src/classes/Client.ts:448-464 | Its loop computes ObjectsEqual: same key count, and each primitive value strictly equal under its key. |
| Client.Client.AreOptionsEqual | src/classes/Client.ts:420-446 | Its loop computes OptionsEqual: both absent, or the same length with pairwise equal option objects. |
| Client.Client.CompareCommands | src/classes/Client.ts:305-372 | A failed GET reports "no change" and keeps the registered commands. A successful GET stores the fetched commands and reports SomeChanged. |
| Client.Client.UpdateCommands | src/classes/Client.ts:264-297 | Does one compare and, only on a change, one PUT of the converted commands. A successful GET replaces the registered commands with the fetched list. An accepted PUT then replaces them with the PUT's answer. A failed GET leaves them unchanged. |
| Client.Client.SyncScope | src/classes/Client.ts:235-254 | One scope's step moves the sync state exactly as the specification function Advance does. |
| Client.Client.SyncAll | src/classes/Client.ts:235-254 | Syncs the global list, then every guild list in key order. The final registered commands and the failure flag equal SyncAfter over Jobs. |
| Client.Client.SyncGuilds | src/classes/Client.ts:245-254 | The guild loop extends the synced prefix one guild at a time, up to SyncAfter over all jobs. |
| Client.Client.PropagateIds | src/classes/Client.ts:256-259 | Every command keeps its fields and gets the id of the first registered command with its name. Nothing else changes. |
| Client.Client.LoadExtensions | src/classes/Client.ts:214-233 | Commands and callbacks are appended in extension order. The split equals SplitOf of all loaded commands. |
| Client.Client.LoadCommands | src/classes/Client.ts:208-260 | After loading, the callbacks are appended, the registered commands and failure flag are those of syncing every scope, and, unless the sync failed, each loaded command carries its registered id. |
| Client.CommandLists | src/classes/Client.ts:219 | One list per extension, holding that extension's commands in map order. |
| Client.ComponentLists | src/classes/Client.ts:221 | One list per extension, holding that extension's callbacks in map order. |
| Partition.AddToGuildValid | src/classes/Client.ts:227-230 | Adding a command to one guild keeps the split well formed. |
| Partition.AddToGuildsValid | src/classes/Client.ts:227-230 | Adding a command to all its guilds keeps the split well formed. |
| Partition.AddToGuildsKeepsGlobal | src/classes/Client.ts:223-231 | A scoped command never touches the global list. |
| Partition.AddToGuildEffect | src/classes/Client.ts:228-229 | After adding to guild h, a guild is present if and only if it was present or is h. Only h's list grows, by the command. |
| Partition.AddToGuildsEffect | src/classes/Client.ts:227-230 | Each guild's list grows by the command once for each time the guild appears in the scopes. |
| Partition.SplitOfValid | src/classes/Client.ts:214-233 | The split of any command list is well formed. |
| Partition.GlobalIsUnscoped | src/classes/Client.ts:224-225 | The global list is exactly the unscoped commands, in load order. |
| Partition.GuildListIsForGuild | src/classes/Client.ts:226-231 | A guild has a list if and only if some command names it, and that list is exactly the commands scoped to it. |
| Partition.ScopedNeverGlobal | src/classes/Client.ts:224-231 | A command with scopes is never registered globally. |
| Partition.Jobs | src/classes/Client.ts:235-254 | The sync jobs are the global list first, then one job per guild key in order. |
| Partition.StepCases | src/classes/Client.ts:264-297 | A failed GET leaves things unchanged. A PUT happens if and only if not in dev mode and SomeChanged is true, and its body is the converted commands. A crash happens if and only if SomeChanged crashes. |
| Partition.SyncAfterSnoc | src/classes/Client.ts:245-254 | Syncing one more job is one more Advance step. |
| Partition.LastScopeWins | src/classes/Client.ts:293 | The registered commands after a successful sync are those of the last scope's step. Each update overwrites the previous one. |
| Partition.FailureSticks | src/classes/Client.ts:235-254 | Once a step fails (the load throws), later jobs change nothing. |
| Partition.IdFor | src/classes/Client.ts:258 | The id of the first registered command with the name, or nothing if and only if none has it. |
| Commands.TypeCode | src/classes/Client.ts:374-418 | The command type's wire code lies between 1 and 3. |
| Commands.PermissionValues | src/classes/Client.ts:378-383 | Each permission maps to its flag value, position by position. |
| Commands.DefaultMemberPermissionsBits | src/classes/Client.ts:378-383 | The permission string is a decimal whose set bits are exactly the union of the listed flags' bits. |
| Commands.Convert | src/classes/Client.ts:374-418 | Only chat-input commands convert. The result keeps name, options, nsfw and DM permission. An empty description becomes the default text. Permissions are omitted if and only if none or an empty list is given. |
| Commands.ConvertAll | src/classes/Client.ts:268 | The PUT body is the converted chat-input commands, in order. |
| Commands.ChatInputs | src/classes/Client.ts:268 | The filter keeps exactly the chat-input commands of the list: every kept command is chat-input and from the list, and every chat-input command of the list is kept. |
| Commands.ChatInputsAppend | src/classes/Client.ts:268 | The filter keeps order: filtering a + b gives the filtered a followed by the filtered b. |
| Commands.IndexOfCommand | src/classes/Client.ts:137 | The index of the first command with the name, or -1 if and only if none has it. |
| Commands.FindCommand | src/classes/CommandContext.ts:98 | The first command with the name, or nothing if and only if none has it. |
| Commands.FindRemote | src/classes/Client.ts:327-333 | The first registered command with the name, or nothing if and only if none has it. |
| Commands.NestedOptionNeverEqual | src/classes/Client.ts:448-464 | An option holding a nested array or object is never equal to a registered one, because === compares references. |
| Commands.PrimitiveOptionsEqual | src/classes/Client.ts:420-464 | Options made only of primitive values, with distinct keys, compare equal to themselves. |
| Commands.CommandChanged | src/classes/Client.ts:327-368 | A command Discord does not know counts as changed. A known context-menu command crashes the compare. |
| Commands.FirstChangedAtTail | src/classes/Client.ts:327-368 | The first changed index moves by one when the head is unchanged. |
| Commands.SomeChangedTrue | src/classes/Client.ts:327-368 | The compare reports a change if and only if some command is the first changed one, with no crash before it. |
| Commands.SomeChangedFalse | src/classes/Client.ts:327-368 | The compare reports no change if and only if every command is unchanged. |
| Commands.MenuCommandCrashes | src/classes/Client.ts:327-368 | A registered context-menu command reached before any change makes the compare crash. |
| Commands.FindRemoteAppend | src/classes/Client.ts:327-333 | A registered command with another name does not affect the lookup. |
| Commands.RemoteOnlyIgnored | src/classes/Client.ts:305-372 | Commands registered on Discord but not loaded locally do not count as changes. |
| Commands.RegExp.constructor | src/classes/ComponentContext.ts:19-29 | A custom-id pattern object holds its pattern. |
| Commands.NewComponentCallback | src/classes/ComponentContext.ts:24-28 | A component callback keeps its pattern, extension and callback. |
| Commands.IndexOfMatch | src/classes/Client.ts:480-482 | The index of the first callback whose pattern matches, or -1 if and only if none matches. |
| Commands.FindCallback | src/classes/Client.ts:480-482 | The first callback whose pattern matches, or nothing if and only if none matches. |
| Commands.ShadowedCallback | src/classes/Client.ts:480-482 | A later callback with the same pattern as an earlier one is never chosen, so it is shadowed. |
| Commands.FavUnfavDisjoint | src/extensions/embed.ts:279-309 | No custom id matches both the anchored fav and unfav patterns. |
| OrderedMaps.OrderedMap.Keys | src/classes/Extension.ts:10-11 | The keys are in insertion order. |
| OrderedMaps.OrderedMap.Values | src/classes/Client.ts:219-221 | The values are in insertion order, as `values()` yields them. |
| OrderedMaps.OrderedMap.IndexOf | src/classes/Extension.ts:78 | The position of the key, or -1 if and only if it is absent. |
| OrderedMaps.OrderedMap.Set | src/classes/Extension.ts:78 | An existing key keeps its position and gets the new value, and every other entry is unchanged. A new key is appended. |
| OrderedMaps.GetAfterSet | src/classes/Extension.ts:78 | A key reads back the value just set. |
| OrderedMaps.GetOtherAfterSet | src/classes/Extension.ts:78 | Setting one key leaves every other key's value unchanged. |
| Extensions.Prototype.constructor | src/classes/Extension.ts:58-73 | A fresh prototype has no command or component map yet. |
| Extensions.Prototype.CommandMap | src/classes/Extension.ts:71-73 | The command map, created empty when missing, has distinct keys. |
| Extensions.Prototype.ComponentMap | src/classes/Extension.ts:144-146 | The component map, created empty when missing, has distinct keys. |
| Extensions.SlashCommandFor | src/classes/Extension.ts:35-70 | The slash command built from the decorator's arguments. Absent dmPermission and nsfw are false, and absent scopes are empty. The callback is the original method. |
| Extensions.SlashCommandIgnoresContexts | src/classes/Extension.ts:35-70 | The integration types and contexts arguments do not affect the command. |
| Extensions.SlashCommand | src/classes/Extension.ts:58-81 | The command is stored under its name, and the method is replaced by the logging stub. The components are unchanged. |
| Extensions.MenuCommandFor | src/classes/Extension.ts:94-121 | The context-menu command of the given type. A missing description becomes "No description set". It has no options. |
| Extensions.ContextMenu | src/classes/Extension.ts:111-130 | The command is stored under its name. The method and components are unchanged. |
| Extensions.PersistentComponent | src/classes/Extension.ts:134-151 | The callback is stored under its pattern object. The commands are unchanged. |
| Extensions.RepeatedNameOverwrites | src/classes/Extension.ts:78 | A second command with the same name replaces the first and keeps its position. |
| Extensions.DistinctPatternsKept | src/classes/Extension.ts:147 | Two different pattern objects give two entries, in declaration order. |
| Extensions.Extension.constructor | src/classes/Extension.ts:13-32 | An extension takes its prototype's command and component maps, or empty ones. |
| Contexts.Prepare | src/classes/CommandContext.ts:163-189 | A reply's flags gain the ephemeral bit when asked for. Text becomes the content. Message data keeps its content and components. |
| Contexts.EphemeralKeepsFlags | src/classes/CommandContext.ts:176-180 | Or-ing the ephemeral flag sets bit 6 and keeps every other bit. |
| Contexts.PreparedEphemeral | src/classes/CommandContext.ts:176-180 | An ephemeral reply has the ephemeral bit and all of the data's own flags. |
| Contexts.ReplyEffect | src/classes/CommandContext.ts:163-189 | A deferred interaction gets a follow-up. Otherwise it gets a ChannelMessageWithSource response carrying the prepared data. |
| Contexts.DeferData | src/classes/CommandContext.ts:191-202 | A deferral carries only the ephemeral flag, when asked for. |
| Contexts.FriendlyText | src/classes/CommandContext.ts:211-216 | The friendly error starts with the message and ends with "Error Code: `code`". |
| Contexts.FindOption | src/classes/CommandContext.ts:126-161 | Returns an option with the name, or nothing if and only if no option at this level has it. |
| Contexts.SearchedLevels | src/classes/CommandContext.ts:126-161 | getOption searches at most three levels, starting with the top level. |
| Contexts.GetOptionSearchesLevels | src/classes/CommandContext.ts:126-161 | getOption is the search through those levels, and what it finds has the name asked for. |
| Contexts.Args | src/classes/CommandContext.ts:101-106 | One argument per option. A subcommand or group contributes its name; any other option contributes its value. |
| Contexts.AuthorId | src/classes/CommandContext.ts:92 | The member's user id when present, otherwise the user's id. |
| Contexts.ButtonDeferType | src/classes/ComponentContext.ts:136-151 | A button deferral is DeferredMessageUpdate if and only if it edits the original message. |
| Contexts.SlashCommandContext.constructor | src/classes/CommandContext.ts:79-123 | The context holds the author id, the looked-up command, the options and args, and the invoking user. Nothing has been sent. |
| Contexts.SlashCommandContext.Reply | src/classes/CommandContext.ts:163-189 | Sends exactly one reply, as a follow-up once deferred. The defer state is unchanged. |
| Contexts.SlashCommandContext.Defer | src/classes/CommandContext.ts:191-202 | Sends one DeferredChannelMessageWithSource response and marks the context deferred. |
| Contexts.SlashCommandContext.ReplyModal | src/classes/CommandContext.ts:204-209 | Sends one Modal response. |
| Contexts.SlashCommandContext.FriendlyError | src/classes/CommandContext.ts:211-216 | Sends the friendly error text as one ephemeral reply. |
| Contexts.ContextMenuContext.constructor | src/classes/CommandContext.ts:255-293 | Holds the author id, the looked-up command and the user. Nothing has been sent. |
| Contexts.ContextMenuContext.Reply | src/classes/CommandContext.ts:295-304 | Always answers with a response, never a follow-up. |
| Contexts.ContextMenuContext.ReplyModal | src/classes/CommandContext.ts:306-311 | Sends one Modal response. |
| Contexts.ContextMenuContext.FriendlyError | src/classes/CommandContext.ts:313-318 | Sends the friendly error as one ephemeral response. |
| Contexts.AutocompleteContext.constructor | src/classes/CommandContext.ts:355-388 | Holds the author id and the looked-up command. Nothing has been sent. |
| Contexts.AutocompleteContext.Reply | src/classes/CommandContext.ts:390-397 | Sends one AutocompleteResult with the choices. |
| Contexts.ButtonContext.constructor | src/classes/ComponentContext.ts:71-95 | Holds the custom id, the matching callback, the user, and the app permissions from the member. |
| Contexts.ButtonContext.Reply | src/classes/ComponentContext.ts:96-122 | Sends exactly one reply, as a follow-up once deferred. |
| Contexts.ButtonContext.Defer | src/classes/ComponentContext.ts:136-151 | Sends one deferral of the edit-origin-dependent type and marks the context deferred. |
| Contexts.ButtonContext.EditOrigin | src/classes/ComponentContext.ts:128-134 | Sends one edit of the original message. |
| Contexts.ButtonContext.ReplyModal | src/classes/ComponentContext.ts:160-165 | Sends one Modal response. |
| Contexts.ButtonContext.FriendlyError | src/classes/ComponentContext.ts:153-158 | Sends the friendly error as one ephemeral reply. |
| Contexts.ModalContext.constructor | src/classes/ComponentContext.ts:190-209 | Holds the custom id, the matching callback and the user. Nothing has been sent. |
| Contexts.ModalContext.Reply | src/classes/ComponentContext.ts:210-219 | Always answers with one response. |
| Contexts.ModalContext.ReplyModal | src/classes/ComponentContext.ts:221-226 | Sends one Modal response. |
| Bits.OrBits | src/classes/Client.ts:378-383 | A bit is set in a OR b if and only if it is set in a or in b. |
| Bits.Pow2Bits | src/classes/Functions.ts:24 | A single flag 2^j has exactly bit j set. |
| Bits.OrAllBits | src/classes/Client.ts:378-383 | Or-ing a list of flags sets exactly the union of their bits. |
| Bits.AndNotBits | src/classes/Functions.ts:25 | required & ~perms has a bit if and only if required has it and perms lacks it. |
| Bits.AndNotZero | src/classes/Functions.ts:25-26 | Nothing is missing if and only if every required bit is present. |
| Bits.NonZeroHasBit | src/classes/Functions.ts:26 | A nonzero mask has some bit set. |
| Bits.DecimalString | src/classes/Client.ts:381 | A number's decimal rendering is digits without a leading zero. |
| Bits.DecimalRoundTrip | src/classes/Client.ts:381 | Parsing a number's decimal rendering gives the number back. |
| Bits.DecimalInjective | src/extensions/magicmention.ts:248 | Different numbers have different decimal renderings. |
| Bits.ParseHexBound | src/extensions/magicmention.ts:177-182 | Four hex digits parse below 16^4. |
| Text.IndexOf | src/classes/Functions.ts:517 | The first occurrence, found if and only if the text is contained. |
| Text.ReplaceFirst | src/extensions/embed.ts:282 | String `replace` with a string pattern. Without an occurrence the text is unchanged. With one, the first occurrence (at IndexOf) is replaced by the replacement, and the text before and after it is kept. |
| Text.TrimStart | src/classes/Functions.ts:517 | Removes exactly the leading whitespace: JavaScript's WhiteSpace and LineTerminator characters, including every Unicode space separator. |
| Text.TrimEnd | src/classes/Functions.ts:517 | Removes exactly the trailing whitespace, over the same character set as TrimStart. |
| Text.TrimmedEdges | src/classes/Functions.ts:517 | A trimmed string is no longer, is part of the original, and has no whitespace at either edge. Whitespace here is JavaScript's full set for `trim`, including U+3000 and the other Unicode space separators. |
| Text.TrimIdempotent | src/classes/Functions.ts:517 | Trimming twice is trimming once. |
| Text.Substring | src/classes/Functions.ts:516 | `substring` clamps both bounds into the text and orders them. The result is the text between them: it starts at the lower bound and is as long as the gap. |
| Json.Lookup | src/classes/Functions.ts:58-61 | Finds a key's value, or nothing if and only if the key is absent. |
| Json.LookupDistinct | src/classes/Functions.ts:61 | With distinct keys, every field is found under its own key. |
| Functions.HasPermission | src/classes/Functions.ts:22-27 | No permissions, or an empty string, grants everything. A non-numeric string throws. Otherwise the answer is true if and only if every bit of the flag is present. |
| Functions.HasNamedPermission | src/classes/Functions.ts:22-27 | A named permission is granted if and only if its bit is set. |
| Functions.UserTag | src/classes/Functions.ts:29-31 | The tag is the plain username if and only if the discriminator is "0". Otherwise it is username#discriminator. |
| Functions.DefaultAvatarIndex | src/classes/Functions.ts:46 | A numeric discriminator gives an index from 0 to 4. Anything else gives "NaN". |
| Functions.AvatarURL | src/classes/Functions.ts:33-48 | The URL is on the Discord CDN. A custom avatar is gif exactly when the hash starts with "_a". Otherwise the default avatar is used. |
| Functions.AvatarURLIntended | src/classes/Functions.ts:33-48 | Corrected: the URL ends in .gif if and only if the hash is animated ("a_" prefix). |
| Functions.AnimatedAvatarGetsPng | src/classes/Functions.ts:45 | The animated hash "a_1f2e" gets a .png URL from the code as written, and a .gif from the corrected one. |
| Functions.DeepEqualsReflexive | src/classes/Functions.ts:50-66 | Every well-formed value deep-equals itself, under any ignore list. |
| Functions.DeepEqualsAsymmetric | src/classes/Functions.ts:58-63 | deepEquals checks only the first object's keys, so {} equals {nsfw:false} but not the reverse. |
| Functions.DeepEqualsSkipsIgnored | src/classes/Functions.ts:60 | Ignored keys never cause a difference. |
| Functions.DeepCopy | src/classes/Functions.ts:68-76 | The copy is the same value. |
| Functions.DeepCopyDeepEquals | src/classes/Functions.ts:50-76 | A copy deep-equals its original. |
| Functions.TitleCase | src/classes/Functions.ts:78-80 | Same length, same letters. The first letter is not lower case and the rest are not upper case. |
| Functions.TitleCaseIdempotent | src/classes/Functions.ts:78-80 | Title-casing twice is title-casing once. |
| Functions.GetQueryParamValue | src/classes/Functions.ts:412-415 | Found if and only if some `?name=` or `&name=` is followed by a non-& character. The value is the first such run up to the next &. |
| Functions.CleanDescription | src/classes/Functions.ts:509-527 | Keeps the raw description, collects the hashtag names in order, and cleans by removing each hashtag's text and trimming. |
| Functions.HashtagNamesAppend | src/classes/Functions.ts:513-520 | Hashtag collection distributes over concatenation of the extras. |
| Functions.CleanedNoLonger | src/classes/Functions.ts:509-527 | The cleaned description is never longer than the raw one. |
| Functions.CleanedWithoutHashtags | src/classes/Functions.ts:514 | Without hashtag extras the description is untouched and no hashtags are collected. |
| Functions.CleanedIsTrimmed | src/classes/Functions.ts:517 | With at least one hashtag the result has no whitespace at either edge. |
| Functions.Account.constructor | src/classes/Functions.ts:529-569 | An account holds its favourites, usage-data flag and log ids. |
| Functions.Without | src/classes/Functions.ts:561 | Removing an id keeps exactly the other entries. |
| Functions.InsertUserFavorite | src/classes/Functions.ts:529-549 | No user fails. No list becomes [id]. A new id is appended. A duplicate is refused with its message and the list unchanged. Other fields are unchanged. |
| Functions.RemoveUserFavorite | src/classes/Functions.ts:551-569 | No user fails. No list is refused. A present id is removed. An absent id is refused. Other fields are unchanged. |
| Functions.InsertThenRemove | src/classes/Functions.ts:529-569 | Inserting a new id and then removing it restores the list. |
| Functions.Subscriptions | src/classes/Functions.ts:474-476 | The filter is non-empty if and only if an entitlement of type 8 exists. |
| Functions.VerifyPremium | src/classes/Functions.ts:469-491 | An entitlement suffices without a database lookup. Otherwise premium holds if and only if the account's has_premium is true. |
| Functions.MakeLinkData | src/classes/Functions.ts:372-386 | The id type is long, short or user by the first matching group. The id comes from that group. The URL gets "https://" when the scheme is missing. Spoiler and douyin are off. |
| Embed.TemplateSlot | src/extensions/embed.ts:105 | The {url} slot of the message template is at 3 with a spoiler and at 0 without. |
| Embed.MessageContent | src/extensions/embed.ts:105 | The content is the URL, wrapped in spoiler bars when asked for. |
| Embed.EmbedButtons | src/extensions/embed.ts:127-156 | The two-button list, then `pop` and `shift`, gives the post's buttons. The Delete button is dropped when the interaction context is a private channel. The Info button is dropped for an Instagram post. |
| Embed.ValidateAndGenerate | src/extensions/embed.ts:30-177 | No supported link gives the invalid-link error. A failed short-URL answer gives its error. An unknown type throws. Otherwise the reply holds the spoilered URL, with the button row only when the config shows buttons. |
| Embed.FirstWithId | src/extensions/embed.ts:295-300 | The position of the first button with the clicked id, if any. |
| Embed.FirstWithIdIs | src/extensions/embed.ts:295-300 | A position satisfying the first-match conditions is the first match. |
| Embed.RelabelRows | src/extensions/embed.ts:294-302 | Every row is relabelled independently. |
| Embed.RelabelFirst | src/extensions/embed.ts:295-301 | The inner loop replaces only the first button with the clicked id. |
| Embed.RelabelInPlace | src/extensions/embed.ts:294-302 | The in-place loop over the rows array leaves it equal to RelabelRows of the old rows. |
| Embed.ReplacePrefix | src/extensions/embed.ts:282 | Replacing a prefix with "" drops exactly that prefix. |
| Embed.RowsOf | src/extensions/embed.ts:291-292 | The message's rows as a fresh array. |
| Embed.Fav | src/extensions/embed.ts:279-305 | Defers as an ephemeral edit. A paid user gets the favourite added and the button relabelled "Remove From Library". An unpaid user gets nothing more. Usage data is untouched. |
| Embed.Unfav | src/extensions/embed.ts:308-334 | Defers as an ephemeral edit. A paid user gets the favourite removed and the button relabelled "Add to Library". Usage data is untouched. |
| Embed.FavThenUnfavRow | src/extensions/embed.ts:294-331 | Relabelling a row for fav and then unfav restores the row. |
| Embed.FavThenUnfavRestores | src/extensions/embed.ts:279-334 | Pressing fav and then unfav restores every row of the message. |
| Embed.RelabelTouchesOnlyFirst | src/extensions/embed.ts:294-302 | Only the first matching button of each row changes. |
| Embed.Delete | src/extensions/embed.ts:337-350 | The message is deleted if and only if the presser is the author and may manage messages. Non-numeric permissions throw. Otherwise one ephemeral refusal is sent. |
| Embed.TruncateTitle | src/extensions/embed.ts:373-375 | Titles over 256 characters become 253 characters plus "...". Shorter ones are kept. |
| Embed.TruncateTitleIdempotent | src/extensions/embed.ts:373-375 | Truncating twice is truncating once, and the title fits in 256. |
| Embed.TagLink | src/extensions/embed.ts:430 | A tag's markdown link has the computed length and ends with a space. |
| Embed.BuildTags | src/extensions/embed.ts:423-441 | The tag loop (shared with src/extensions/tiktok.ts:316-334) computes TagsFrom. |
| Embed.TagsShape | src/extensions/embed.ts:423-441 | The tag field is all links, or a prefix of links with its last character dropped and " ..." appended at the first link that would overflow. |
| Embed.TagsBound | src/extensions/embed.ts:423-441 | The tag field is at most 1025 characters long. |
| Embed.TagsCanReach1025 | src/extensions/embed.ts:430-437 | Eleven tags make the field exactly 1025 characters, one over Discord's 1024 limit. |
| Embed.BuildCappedTags | src/extensions/embed.ts:423-441 | Corrected loop: it computes CappedTagsFrom. |
| Embed.CappedTagsBound | src/extensions/embed.ts:423-441 | The corrected tag field always fits in 1024 characters. |
| Embed.CappedAgreesWhenShort | src/extensions/embed.ts:423-441 | When all links fit comfortably, the corrected field equals the original one. |
| TikTok.ValidateAndGenerate | src/extensions/tiktok.ts:27-119 | No link or an unknown link gives the invalid-link error, and a user link gives its own error. A missing post gives the invalid-link error, a fetch failure sends its message, and a missing short URL gives "something went wrong". Otherwise the reply is the short URL with buttons per the config. |
| TikTok.CacheIgnoresFetch | src/extensions/tiktok.ts:63-67 | With a cached short URL the fetch result does not matter. |
| GatewayHelper.ErrorTextIsFriendlyText | src/extensions/_gateway_helper.ts:20-22 | The gateway's error text is the contexts' friendly error text. |
| GatewayHelper.GatewayValidateAndGenerate | src/extensions/_gateway_helper.ts:24-147 | The same checks as the TikTok command, returned as content, components and an error flag. Unlistened channels give an empty non-error. It succeeds if and only if a short URL exists. |
| GatewayHelper.GatewayAgreesWithCommand | src/extensions/_gateway_helper.ts:24-147 | Outside the unlistened case, the gateway result errs exactly when the command does not reply with data. It carries the same text, content and buttons. |
| MagicMention.GenCode | src/extensions/magicmention.ts:177-182 | The code is the first four hex digits of the digest plus 10000, so it lies in 10000..75535. |
| MagicMention.FirstByDiscord | src/extensions/magicmention.ts:28 | findOne by discord id: the first matching record, or -1 if and only if none matches. |
| MagicMention.FirstBySecUid | src/extensions/magicmention.ts:296 | findOne by sec_uid: the first matching record, or -1 if and only if none matches. |
| MagicMention.MentionStore.constructor | src/extensions/magicmention.ts:9-60 | The collection holds the given records. |
| MagicMention.MentionStore.DeleteOne | src/extensions/magicmention.ts:209 | Removes the first record with the discord id and keeps the collection consistent. |
| MagicMention.MentionStore.Save | src/extensions/magicmention.ts:312-315 | Replaces exactly one record. |
| MagicMention.MentionStore.Create | src/extensions/magicmention.ts:317-321 | Appends the record. |
| MagicMention.Enabled | src/extensions/magicmention.ts:46-54 | The guild list afterwards holds exactly the old guilds and g. It is unchanged when g was already listed; otherwise g is appended once after the old list. |
| MagicMention.Disabled | src/extensions/magicmention.ts:91-94 | The guild list afterwards holds exactly the old guilds except g. It is unchanged when g was not listed. |
| MagicMention.EnableDisableIdempotent | src/extensions/magicmention.ts:46-94 | Enabling twice is enabling once, and disabling twice is disabling once. |
| MagicMention.EnableThenDisable | src/extensions/magicmention.ts:46-94 | Enabling a new guild and then disabling it restores the list. |
| MagicMention.HandleEnable | src/extensions/magicmention.ts:9-60 | The reply follows the source's checks in order: premium, guild, the feature flag, a linked account, already enabled, otherwise enabled. The guild is added only on success. One ephemeral reply is sent. Consistency is kept. |
| MagicMention.HandleDisable | src/extensions/magicmention.ts:62-99 | Same pattern for disabling. The guild is removed only on success. Consistency is kept. |
| MagicMention.LinkAccount | src/extensions/magicmention.ts:296-322 | An account linked to the caller gives "already yours". One linked to someone else gives "linked elsewhere". Otherwise the caller's record is updated or created. Consistency is kept. |
| MagicMention.LinkedOwner | src/extensions/magicmention.ts:310-322 | After linking, the collection stays consistent and the caller's record is the one found for the sec_uid. |
| MagicMention.HandleLink | src/extensions/magicmention.ts:184-350 | The premium wall, then the three sentinels (unlink deletes the record), then base64 validity, the fetched user, and the code in the bio, checked in order. With the code present, the first record holding the sec_uid decides: the caller's own gives AlreadyYours, another user's gives LinkedElsewhere, and both leave the store unchanged. With no such record the account is linked. Exactly one ephemeral reply is sent. |
| MagicMention.Verify | src/extensions/magicmention.ts:486-573 | The Verify button repeats the fetch and code checks for the sec_uid in its custom id. The conflict rules then decide as in HandleLink: AlreadyYours and LinkedElsewhere leave the store unchanged, and otherwise the account is linked. It sends one ephemeral reply and keeps consistency. |
| MagicMention.MentionRoute | src/extensions/magicmention.ts:467-484 | The link, view, enable and disable subcommands are tried in that order, each by getOption. |
| MagicMention.SubcommandRouted | src/extensions/magicmention.ts:467-484 | Each subcommand invocation reaches its own handler. |
| MagicMention.UsernameChoices | src/extensions/magicmention.ts:101-175 | With fewer than two characters: a "start typing" choice, plus unlink when linked. No user found: "no users" and "can't find". Otherwise: one choice named "@", the handle, " | ", the follower count and " Followers", whose value is the found user's sec_uid. |
| MagicMention.ChoicesAreHandled | src/extensions/magicmention.ts:101-216 | Every offered choice is one of the link command's sentinels or the found sec_uid. |
| PersonalSettings.Scrub | src/extensions/personal_settings.ts:45-46 | A scrubbed log has no user and channel "unknown". |
| PersonalSettings.ScrubbedLogs | src/extensions/personal_settings.ts:42-48 | Scrubbing keeps the set of logs. |
| PersonalSettings.ScrubbedLogsForget | src/extensions/personal_settings.ts:42-48 | The user's logs are scrubbed and every other log is unchanged. |
| PersonalSettings.ScrubbedLogsIdempotent | src/extensions/personal_settings.ts:42-48 | Scrubbing twice is scrubbing once, and scrubbing nothing changes nothing. |
| PersonalSettings.EmbedLogStore.constructor | src/extensions/personal_settings.ts:42-48 | The store holds the given logs. |
| PersonalSettings.EmbedLogStore.ScrubAll | src/extensions/personal_settings.ts:42-48 | The loop over the user's log ids leaves the store equal to ScrubbedLogs. |
| PersonalSettings.ChoiceOf | src/extensions/personal_settings.ts:14-26 | No option is a report. The values "yes", "no" and "delete" each select their case, each if and only if. |
| PersonalSettings.AfterChoice | src/extensions/personal_settings.ts:21-53 | A report or an unknown value changes nothing. Yes opts in. No and delete opt out. Only delete clears the log list and scrubs the logs. |
| PersonalSettings.AfterChoiceIdempotent | src/extensions/personal_settings.ts:26-53 | Repeating a choice has no further effect. |
| PersonalSettings.LastChoiceWins | src/extensions/personal_settings.ts:26-53 | After any earlier choice, the latest yes/no/delete alone decides the opt-in state. |
| PersonalSettings.DeleteForgets | src/extensions/personal_settings.ts:40-52 | After delete, a logged embed no longer names the user, the log list is empty, and the user is opted out. |
| PersonalSettings.UsageReply | src/extensions/personal_settings.ts:21-53 | There is a reply if and only if the choice is recognised. |
| PersonalSettings.HandleUsageData | src/extensions/personal_settings.ts:10-54 | Defers ephemerally first. A missing account gets the fetch error. Otherwise the stored state becomes AfterChoice of the option, the reply matches, and favourites are untouched. |
| PersonalSettings.PrivacyRouteOf | src/extensions/personal_settings.ts:106-113 | "policy" wins, then "usage". Each holds if and only if its condition does. |
| PersonalSettings.Privacy | src/extensions/personal_settings.ts:106-113 | The policy route sends the policy text and changes nothing. The usage route defers ephemerally, then follows up with the fetch error when there is no account, or else with UsageReply of the collect choice. The account and logs become AfterChoice of that choice, and favourites are never touched. |
| PersonalSettings.UsageInvocationChoice | src/extensions/personal_settings.ts:62-113 | An invocation of /privacy usage data collect:value reaches the usage route and its collect option. "delete" selects deletion. |

## Left out

- The network is not modelled: HTTP, Discord REST calls, fetch and the top.gg vote check. Their answers are parameters of the operations that use them.
- The MongoDB models (accounts, guild configs, shortener, embed logs, Magic Mention users) are values or small classes. Queries are first-match lookups; concurrency and persistence are not modelled.
- The Ed25519 signature check is an input to `Server.RouteRequest`.
- SHA-256 and base64 are not computed. `MagicMention.HandleLink` takes the digest and the decoded sec_uid as inputs.
- `fetchUser`, `TTRequester` and `fetchFullUrl` are network calls. Their results are inputs.
- Regular expressions are modelled only for the custom-id patterns the extensions register (anchored prefix plus digits, unanchored prefix plus digits, unanchored prefix). `checkForTikTokLink`'s URL patterns are not modelled. `Functions.MakeLinkData` takes the match groups as input.
- `generateSlug` uses randomness and is not modelled.
- `command_premium_wall` is a boolean input (`paid`). Its own reply to unpaid users is not modelled.
- Logging (`console`, `webhookLog`) and `insertEmbedLog` are not modelled.
- The embed cards (titles, descriptions, fields, colours) are not modelled; only the message content and button rows are. The `info` and `music` buttons, and the card builders around `Embed.TruncateTitle` and the tag builder, are not modelled.
- Locale-formatted follower counts are an input string of `MagicMention.UsernameChoices`.
- `handleViewCmd` fetches guild names from Discord and is not modelled. Only its route in `MagicMention.MentionRoute` is.
- The second `!ctx.guildId` check in the enable and disable handlers is dead code after the earlier return and is not modelled.
- `PersonalSettings.HandleUsageData`: the fire-and-forget `forEach(async …)` is modelled as a sequential loop that completes before the reply. A missing `user.logs` is treated as empty. `privacy_cmd` calls the handler without `await`, so a throw inside it escapes the command's try/catch and gets no fallback reply. `PersonalSettings.Privacy` runs the handler to completion and does not model that path.
- `getAccount` is an input: the account object or null.
- `ctx.command.mention` is the `linkMention` parameter.
- Legacy `src/commands/*`, `src/extensions/info.ts` and `src/extensions/ping.ts` are not part of this model.
- `Bits.OrBits` and `Contexts.Prepare` model message flags with unbounded integers. JavaScript `|` works on 32-bit integers, and the flags used stay below 2^31.
- `Contexts.Prepare` returns a new reply value. The source ORs the ephemeral flag into the caller's own `data.flags` in place, and the model does not capture that aliasing.
- JSON numbers are integers only (`Json.JNum`). Floating-point values, such as an option's `min_value`, are not modelled.
- `Functions.HasPermission` and `Functions.DefaultAvatarIndex` read only plain decimal strings. `BigInt()` and `Number()` also accept surrounding whitespace, `0x` hexadecimal and a leading `-`, which the model treats as non-numeric. Discord snowflakes and permission strings are plain decimal.
- String lengths count Dafny characters, not UTF-16 code units. The 256-character title and 1024-character tag limits therefore match only for text in the Basic Multilingual Plane.
- `Text.ReplaceFirst` does not model `$` substitution patterns in the replacement; the replacements used are "" or plain text.
- `Functions.GetQueryParamValue` returns the raw value; `decodeURIComponent` is not modelled.
- `Functions.TitleCase` changes case for ASCII letters only.
- The `type` field of the short-URL answer is assumed present in `Embed.ValidateAndGenerate`.
- `Client.Client.HandleSlashCommand` and `Client.Client.HandleMenuCommand` run the handler as an oracle (`threw`). `HandleSlashCommand` also takes the handler's own `defer` call as an input, because that decides how the fallback goes out. Nothing else the handler sends is part of their contract.
- `Client.Client.HandleAutocomplete` does not model the command's autocomplete delegate or its focused-option routing. It only finds the command.
- `src/extensions/_gateway_helper.ts` has no default export. Its function is modelled standalone.
- The `fav`, `unfav`, `delete` and tag code in `src/extensions/tiktok.ts` (lines 177-248 and 316-334) is identical to `src/extensions/embed.ts` and is modelled once in `Embed`.

## Findings

| source | as written | input that shows it | evidently intended | confidence | as-written member | corrected member |
|---|---|---|---|---|---|---|
| src/classes/Functions.ts:45 | An avatar is a gif when its hash starts with "_a" | avatar hash "a_1f2e" gives a .png URL | Animated hashes start with "a_" and should get .gif | not executed | Functions.AnimatedAvatarGetsPng | Functions.AvatarURLIntended |
| src/extensions/embed.ts:423-441 (and src/extensions/tiktok.ts:316-334) | The overflow check allows a tag field of 1025 characters | six tags of 36 letters, four of 35, then one of 1 letter | The field stays within Discord's 1024-character limit | not executed | Embed.TagsCanReach1025 | Embed.CappedTagsBound |
