# terraform-provider-minecraft: commands and reconcilers

terraform-provider-minecraft manages a Minecraft server over RCON.
- Each Terraform resource (blocks, fills, entities, teams, game rules, game modes, operators, bans, the day lock) turns its attributes into server console commands.
- Each resource runs those commands in a fixed order, with early exits, rollbacks and warnings.
- The client (`internal/minecraft`) builds the command texts and reads values back out of the server's free-text replies.

This project models that layer in Dafny:
- **The RCON connection** is `Transport.Conn`. Its `log` records every exchange in order. Its fixed `script` of replies decides which exchange fails and what text each reply carries. A proof therefore covers every way the server can answer.
- **The client** is module `Client`. Each method states the exact entries it appends to the log and the error or value it returns.
- **The command texts** are module `Commands`. They are exact strings, with lemmas that read coordinates, words and names back out of them.
- **The rule registry** is module `Rules`, and **the reply parsers** are module `Replies`.
- **Each resource** is one module. Create, Read, Update, Delete and ImportState are methods or functions. Each one ties the log it leaves and the `Framework.Outcome` it returns (the state stored, plus errors and warnings) to the plan and the replies.
- **The Go integer type** is 64-bit. Coordinates are `Text.Int64`, and the additions the source makes (the chest's right half, the bed's head) wrap around as Go's do.

## Model

| member | source | states |
|---|---|---|
| Transport.Conn.Send | internal/minecraft/client.go:41-49 | one exchange sends the command verbatim, appends exactly it to the log, and returns the reply the script gives for that exchange |
| Transport.Conn.AttemptedStops | internal/minecraft/client.go:84-100 | in a run of sends that fails, the last entry sent is the failing one, every earlier one was answered, and nothing after the failure goes out |
| Transport.Conn.AttemptedAll | internal/minecraft/client.go:84-100 | in a run of sends where nothing fails, every entry is sent and every exchange answered |
| Transport.Conn.RunIsAttempted | internal/provider/team_resource.go:234-271 | a sequence of optional steps sends exactly its present steps one after another, stopping at the first failure: a skipped option is as if it were not in the list |
| Client.SendErr | internal/minecraft/client.go:41-49 | a send's error is present exactly when the exchange failed, and it is returned unchanged |
| Client.CreateBlock | internal/minecraft/client.go:41-49 | sends exactly `setblock x y z M replace` and returns that send's error |
| Client.DeleteBlock | internal/minecraft/client.go:52-60 | sends exactly `setblock x y z minecraft:air replace` and returns that send's error |
| Client.CreateStairs | internal/minecraft/client.go:63-70 | sends one `setblock` whose block state carries facing, half, shape and waterlogged as given |
| Client.FillBlock | internal/minecraft/client.go:516-524 | sends exactly `fill sx sy sz ex ey ez M hollow` and returns that send's error |
| Client.CreateEntity | internal/minecraft/client.go:73-81 | sends one `summon` whose CustomName text is the given id |
| Client.DeleteEntity | internal/minecraft/client.go:84-100 | sends the `kill` by type and CustomName, then the `clear`; a failed kill sends no clear and its error is returned |
| Client.GetDefaultGameMode | internal/minecraft/client.go:113-136 | sends the storage query once; a failed send is a send error, an answer is read by Replies.DefaultModeFromReply |
| Client.GetUserGameMode | internal/minecraft/client.go:141-161 | sends the player query once; a failed send is a send error, an answer is read by Replies.UserModeFromReply |
| Client.SetDefaultGameMode | internal/minecraft/client.go:164-170 | sends exactly `defaultgamemode M` |
| Client.SetUserGameMode | internal/minecraft/client.go:173-179 | sends exactly `gamemode M P` |
| Client.CreateOp | internal/minecraft/client.go:182-188 | sends exactly `op P` |
| Client.RemoveOp | internal/minecraft/client.go:191-197 | sends exactly `deop P` |
| Client.CreateTeam | internal/minecraft/client.go:200-210 | sends `team add N "D"` when a display name is given, else `team add N` |
| Client.DeleteTeam | internal/minecraft/client.go:213-221 | sends exactly `team remove N` |
| Client.SetTeamColor | internal/minecraft/client.go:226-230 | sends the colour lower-cased in `team modify N color C` |
| Client.SetTeamFriendlyFire | internal/minecraft/client.go:232-239 | sends `team modify N friendlyFire true/false` |
| Client.SetTeamSeeFriendlyInvisibles | internal/minecraft/client.go:241-248 | sends `team modify N seeFriendlyInvisibles true/false` |
| Client.SetTeamNametagVisibility | internal/minecraft/client.go:251-255 | sends the trimmed mode in `team modify N nametagVisibility V` |
| Client.SetTeamCollisionRule | internal/minecraft/client.go:258-262 | sends the trimmed rule in `team modify N collisionRule R` |
| Client.SetTeamDisplayName | internal/minecraft/client.go:266-271 | sends the display name as a text component with its quotes escaped |
| Client.JoinTeamTargets | internal/minecraft/client.go:279-286 | no targets: nothing sent and no error; otherwise one `team join T` naming all targets, separated by single blanks |
| Client.LeaveTeamTargets | internal/minecraft/client.go:293-300 | no targets: nothing sent and no error; otherwise one `team leave` naming all targets |
| Client.JoinTeamPlayers | internal/minecraft/client.go:304-307 | the players join as targets, with the same empty-list rule |
| Client.LeaveTeamPlayers | internal/minecraft/client.go:309-311 | the players leave as targets, with the same empty-list rule |
| Client.JoinTeamEntityByName | internal/minecraft/client.go:324-327 | joins exactly the one selector matching the CustomName |
| Client.LeaveTeamEntityByName | internal/minecraft/client.go:329-332 | removes exactly the one selector matching the CustomName |
| Client.JoinTeamEntitiesByTag | internal/minecraft/client.go:338-340 | joins exactly `@e[tag=T]` |
| Client.LeaveTeamEntitiesByTag | internal/minecraft/client.go:342-344 | removes exactly `@e[tag=T]` |
| Client.BoolRuleGate | internal/minecraft/client.go:347-358 | a boolean write goes out exactly for the registered boolean rules, as `gamerule R true/false` with the trimmed name; any other name gets the not-a-boolean-rule error naming it |
| Client.IntRuleGate | internal/minecraft/client.go:361-368 | an integer write goes out exactly for the registered integer rules, its value in decimal, which Atoi reads back; any other name is rejected |
| Client.SetGameRuleBool | internal/minecraft/client.go:347-358 | an unknown rule sends nothing and returns the error; a known one sends the write and returns that send's error |
| Client.SetGameRuleInt | internal/minecraft/client.go:361-368 | the same for integer rules |
| Client.GetGameRule | internal/minecraft/client.go:371-398 | sends `gamerule R` with the trimmed name; a failed send is returned unchanged, and any answer becomes a value, never an error |
| Client.ResetGate | internal/minecraft/client.go:402-412 | a reset builds a command exactly for the registered rules, and its only error is "no default" for the trimmed name |
| Client.ResetBoolRule | internal/minecraft/client.go:402-412 | for a boolean rule the reset is the ordinary boolean write of its default |
| Client.ResetIntRule | internal/minecraft/client.go:402-412 | for an integer rule the reset is the ordinary integer write of its default; the boolean defaults, consulted first, never hold it |
| Client.ResetKeepInventory | internal/minecraft/client.go:462-494 | resetting `keepInventory` sends `gamerule keepInventory false` |
| Client.ResetSpawnRadius | internal/minecraft/client.go:496-502 | resetting `spawnRadius` sends `gamerule spawnRadius 5` |
| Client.ResetGameRuleToDefault | internal/minecraft/client.go:402-412 | with no default nothing is sent and the error is returned; otherwise the default is written once |
| Client.BanPlayer | internal/minecraft/ban.go:8-15 | sends exactly one `ban` command and returns that send's error unchanged |
| Client.CreateZombie | internal/provider/zombie_resource.go:175-193 | one call, recorded with its position, id and four flags |
| Client.CreateSheep | internal/provider/sheep_resource.go:130-139 | one call, recorded with its position, id, colour and sheared flag |
| Client.SummonVillager | internal/provider/summon_villager_resource.go:99-112 | one call, recorded with its coordinates, id and data tag |
| Client.DeleteVillager | internal/provider/summon_villager_resource.go:158-161 | one call, recorded with the id |
| Client.SetDayLock | internal/provider/daylock_resource.go:81-87 | one call, recorded with the flag |
| Client.UnbanPlayer | internal/provider/ban_resource.go:108-112 | one call, recorded with the player |
| Commands.SelectorByCustomName | internal/minecraft/client.go:318-322 | a name without quotes appears verbatim between the fixed selector prefix and suffix |
| Commands.SelectorInjective | internal/minecraft/client.go:318-322 | two names get the same selector only if they are the same name |
| Commands.SelectorReadBack | internal/minecraft/client.go:318-322 | unescaping the text between the selector's prefix and suffix gives the name back |
| Commands.SetBlockWords | internal/minecraft/client.go:41-49 | a `setblock` of a blank-free material splits on blanks into exactly its six words, each coordinate in base 10 |
| Commands.SetBlockAddressed | internal/minecraft/client.go:41-60 | the coordinates read back from a `setblock` are the ones it was built from, whatever the material, so placing and clearing name the same block |
| Commands.FillWords | internal/minecraft/client.go:516-524 | a `fill` splits into exactly its nine words: the two corners, the material and `hollow` |
| Commands.TeamJoinWords | internal/minecraft/client.go:279-286 | a `team join` splits into `team`, `join`, the team and then exactly the targets, one word each |
| Commands.TeamLeaveWords | internal/minecraft/client.go:293-300 | a `team leave` splits into `team`, `leave` and exactly the targets |
| Commands.BanShape | internal/minecraft/ban.go:8-15 | the ban always starts with `ban ` and the player; an empty reason gives exactly that, a non-empty one follows after one blank, verbatim |
| Commands.SummonAndKillShareTag | internal/minecraft/client.go:73-100 | the `summon` gives the entity exactly the NBT compound the `kill` selects it by |
| Commands.KillNamedInjective | internal/minecraft/client.go:84-100 | a `kill` for one id never selects by another id |
| Rules.RulesDisjoint | internal/minecraft/client.go:418-459 | no rule is both a boolean and an integer rule |
| Rules.DefaultsCoverRules | internal/minecraft/client.go:418-502 | each default map's keys are exactly its rule set |
| Rules.FalseDefaults | internal/minecraft/client.go:462-494 | the eight boolean rules whose vanilla default is false, and no others |
| Rules.IntRuleDefaults | internal/minecraft/client.go:496-514 | an integer rule has an integer default and no boolean one |
| Rules.BoolRuleDefaults | internal/minecraft/client.go:462-514 | a boolean rule has a boolean default |
| Rules.DefaultsAreRules | internal/minecraft/client.go:418-514 | a rule with a default is a registered rule of the same kind |
| Rules.KeepInventoryRule | internal/minecraft/client.go:418-494 | `keepInventory` is a boolean rule with default false |
| Rules.SpawnRadiusRule | internal/minecraft/client.go:453-502 | `spawnRadius` is an integer rule with default 5 |
| Replies.WordValues | internal/minecraft/client.go:389-396 | each reply word's value: `true`/`false` in any case, lower-cased, or an Atoi-accepted word as written |
| Replies.LastSomeNone | internal/minecraft/client.go:387-397 | the backward scan finds nothing exactly when no word has a value |
| Replies.LastSomeIsLast | internal/minecraft/client.go:387-397 | what the backward scan finds is the last value present |
| Replies.GameRuleScan | internal/minecraft/client.go:387-397 | the scan finds the value of the last word that has one, and nothing when no word has one |
| Replies.ParseGameRuleReply | internal/minecraft/client.go:380-397 | the backward index loop with early returns computes the reply's value as GameRuleValue defines it |
| Replies.GameRuleLoneWord | internal/minecraft/client.go:380-385 | a one-word reply, amid any whitespace, is returned verbatim: not lower-cased, not checked |
| Replies.GameRuleTrailingValue | internal/minecraft/client.go:387-396 | a reply ending in a value word reports that word's value (`TRUE` as `true`, `24` as `24`) |
| Replies.GameRuleFallback | internal/minecraft/client.go:397 | with no value word among several words, the whole trimmed reply comes back; parsing never fails |
| Replies.AfterLastColon | internal/minecraft/client.go:122-126 | the text after the last `:`, absent exactly when the reply has no `:`, and holding no `:` |
| Replies.ModeOfId | internal/minecraft/client.go:103-109 | an accepted id maps to one of the four mode names |
| Replies.DefaultModeFromReply | internal/minecraft/client.go:122-135 | a reply without `:` is exactly the unexpected-response error |
| Replies.UserModeFromReply | internal/minecraft/client.go:147-160 | the same for the player query |
| Replies.DefaultModeReadsId | internal/minecraft/client.go:122-135 | a storage reply ending in `:<id>}` for a known id names that mode, whatever precedes the last `:` |
| Replies.UserModeReadsId | internal/minecraft/client.go:147-160 | an entity reply ending in `: <id>` for a known id names that mode |
| Replies.UserModeRejectsId | internal/minecraft/client.go:147-160 | a number outside the table after the last `:` is the unknown-id error for that number |
| Text.AtoiDec | internal/minecraft/client.go:361-368 | every 64-bit integer written in decimal is read back by Atoi as itself |
| Text.TrimSpaceIdempotent | internal/provider/gamerule_resource.go:79-99 | trimming twice is trimming once, so the client's own trim of an already trimmed name changes nothing |
| Text.ToLowerIdempotent | internal/provider/team_resource.go:236-241 | lowering leaves none of the letters it changes (A to Z, the dotted capital I, the Kelvin sign), so lowering twice is lowering once |
| Text.UnescapeEscape | internal/minecraft/client.go:318-322 | quote escaping loses nothing: the original text can be read back |
| Text.SplitJoin | internal/minecraft/client.go:279-300 | targets joined by blanks split back into the same targets |
| Text.SplitN3Join | internal/provider/team_member_resource.go:266-272 | a three-part id whose first two parts hold no separator splits back into its parts, the last keeping the rest |
| Text.Wrap64 | internal/provider/chest_resource.go:126-134 | a Go `int` addition: the exact sum when it fits in 64 bits, otherwise congruent to it modulo 2^64 |
| Framework.Settle | internal/provider/stairs_resource.go:153-158 | after the last client call, its error fails the call and stores nothing; otherwise the given data is stored with no error |
| Framework.Removed | internal/provider/stairs_resource.go:227-231 | a Delete whose client error is an error: it fails exactly when the call failed |
| Framework.Warned | internal/provider/daylock_resource.go:137-140 | a Delete whose client error is only a warning: it never fails, and it warns exactly when the call failed |
| Framework.DefaultFalse | internal/provider/zombie_resource.go:157-168 | a null or unknown bool becomes a known false; a known one is kept |
| GameruleResource.InferDec | internal/provider/gamerule_resource.go:80-87 | every 64-bit integer written in decimal is inferred as that integer |
| GameruleResource.InferBool | internal/provider/gamerule_resource.go:89-94 | `true` and `false` are inferred as the boolean they name |
| GameruleResource.InferAnyCase | internal/provider/gamerule_resource.go:89-94 | any value that trims and lowers to `true`/`false` is that boolean, whatever its letter case |
| GameruleResource.WritePlanGate | internal/provider/gamerule_resource.go:79-99 | a value neither integer nor boolean is refused before any rule is looked at; an integer is written only to an integer rule, a boolean only to a boolean rule, each otherwise rejected with the trimmed name |
| GameruleResource.RefreshedIntReplans | internal/provider/gamerule_resource.go:120-128 | a lone integer reply stored by Read is inferred as that same integer at the next plan |
| GameruleResource.Apply | internal/provider/gamerule_resource.go:79-99 | a refused value or rule sends nothing; otherwise the planned write goes out once and its error is the problem |
| GameruleResource.Create | internal/provider/gamerule_resource.go:65-104 | nothing is sent when the plan is refused; otherwise the write is sent, and on success the plan is stored with the trimmed name as id |
| GameruleResource.Update | internal/provider/gamerule_resource.go:132-170 | the same write, storing the plan as it is |
| GameruleResource.Read | internal/provider/gamerule_resource.go:106-130 | queries the trimmed rule once; a failure is an error, otherwise the trimmed reported value replaces the stored one |
| GameruleResource.Delete | internal/provider/gamerule_resource.go:172-192 | resets the rule to its default; a failure, an unknown rule included, is only a warning, so Delete never fails |
| GameruleResource.ImportState | internal/provider/gamerule_resource.go:194-217 | the trimmed id becomes id and name, and the value is the trimmed live read; a failed read is an error |
| TeamResource.OptionCommandsCount | internal/provider/team_resource.go:234-271 | the options send one command per option set, at most five |
| TeamResource.ColorLoweredOnce | internal/provider/team_resource.go:236-241 | the colour, lowered by the resource and again by the client, is sent lowered once |
| TeamResource.ApplyTeamOptions | internal/provider/team_resource.go:234-271 | sends the set options in the fixed order colour, friendlyFire, seeFriendlyInvisibles, nametagVisibility, collisionRule, skipping unset ones and stopping at the first failure, whose error it returns |
| TeamResource.Create | internal/provider/team_resource.go:101-135 | adds the team under its trimmed name, with the name as display name when none is given, then the options; a failed add sends no option; on success the trimmed name is the id |
| TeamResource.Read | internal/provider/team_resource.go:137-147 | keeps the state and sends nothing |
| TeamResource.Update | internal/provider/team_resource.go:149-186 | renames the display only when equalString finds it changed, then re-applies every set option, stopping at the first failure |
| TeamResource.Delete | internal/provider/team_resource.go:188-206 | sends exactly one `team remove` with the stored name; its failure is an error |
| TeamResource.CreateNamesDisplay | internal/provider/team_resource.go:115-119 | `team add` always carries a display name: the planned one, or else the name |
| TeamResource.EqualStringValues | internal/provider/team_resource.go:216-221 | on well-formed values equalString is equality of the values, so null and "" count as equal |
| TeamResource.UpdateKeepsDisplay | internal/provider/team_resource.go:168-182 | an unchanged display name is not re-sent, and Update sends exactly what the options send |
| TeamResource.UpdateRenames | internal/provider/team_resource.go:168-175 | unless both are null, a changed display name is re-sent before any option |
| TeamMemberResource.PickTargetExactlyOne | internal/provider/team_member_resource.go:231-264 | validation succeeds exactly when the trimmed team is not blank and exactly one target is set, and it then names that target's kind and its trimmed, non-blank value; a blank team is the team-required error |
| TeamMemberResource.ValidateAndPickTarget | internal/provider/team_member_resource.go:231-264 | counting the set targets field by field yields the kind and value the validation defines, or its error with both left empty |
| TeamMemberResource.ParseMemberID | internal/provider/team_member_resource.go:266-272 | an id joining team, kind and value with bars, none in team or kind, parses back to kind and value |
| TeamMemberResource.ParseShortID | internal/provider/team_member_resource.go:266-272 | an id with fewer than two bars falls back to two empty strings |
| TeamMemberResource.JoinLeaveSameTarget | internal/provider/team_member_resource.go:114-135 | for every known kind, the join Create sends and the leave Delete sends name the same target |
| TeamMemberResource.Create | internal/provider/team_member_resource.go:93-138 | a validation failure sends nothing; otherwise the target joins the trimmed team by its kind's call, and on success team, kind and value joined by bars are the id |
| TeamMemberResource.Read | internal/provider/team_member_resource.go:140-151 | keeps the state and sends nothing |
| TeamMemberResource.Update | internal/provider/team_member_resource.go:153-160 | applies nothing, stores the plan and records a warning but no error |
| TeamMemberResource.ValidationDiags | internal/provider/team_member_resource.go:162-198 | Delete records an error exactly when validation fails |
| TeamMemberResource.Delete | internal/provider/team_member_resource.go:162-198 | leaves the team with the validated target, falling back to the one the id names; an unknown kind sends nothing; the validation error is still recorded |
| TeamMemberResource.ImportState | internal/provider/team_member_resource.go:200-227 | exactly the three-part ids of a known kind are accepted, setting id, team and the target field the kind names, with the other two target fields known and empty |
| TeamMemberResource.ImportCreatedID | internal/provider/team_member_resource.go:200-227 | importing the id Create stored validates to the very target Create joined |
| TeamMemberResource.DeleteFallsBackToID | internal/provider/team_member_resource.go:176-197 | a membership whose targets fail validation is still removed by the target its id names |
| GamemodeResource.ValidateMode | internal/provider/gamemode_resource.go:260-267 | accepts exactly the names of the server's mode table |
| GamemodeResource.DottedCapitalIAccepted | internal/provider/gamemode_resource.go:101-105 | a mode written with the dotted capital I, as `SURVİVAL`, lowers to `survival` and passes validation, as under Go's lower-casing |
| GamemodeResource.SnapshotIsMode | internal/provider/gamemode_resource.go:115-131 | the snapshot is the fallback or a valid mode name |
| GamemodeResource.ModeNamesTrimmed | internal/provider/gamemode_resource.go:217-230 | mode names have no surrounding blanks, so Delete's trim keeps a snapshot as it is |
| GamemodeResource.Create | internal/provider/gamemode_resource.go:87-141 | an invalid trimmed, lowered mode sends nothing; otherwise the current mode is queried before the set, a failed or empty query leaves the snapshot "", only a failed set fails, and `default` or `player:P` is the id |
| GamemodeResource.Read | internal/provider/gamemode_resource.go:143-151 | keeps the state and sends nothing |
| GamemodeResource.Update | internal/provider/gamemode_resource.go:153-201 | the same query then set, keeping the stored snapshot when the query fails or is empty |
| GamemodeResource.Delete | internal/provider/gamemode_resource.go:203-233 | restores a non-empty trimmed snapshot with one set for the same target, as a warning at worst; with no snapshot it sends nothing |
| GamemodeResource.DeleteRestoresSnapshot | internal/provider/gamemode_resource.go:115-131 | after a Create, Delete sets back exactly the mode the snapshot saw, for the same target |
| GamemodeResource.ImportState | internal/provider/gamemode_resource.go:235-256 | accepts `default` (id only) and `player:P` (also the player, the text after the prefix, possibly empty); mode and previous mode stay unset; a blank or other id is an error |
| GamemodeResource.ImportModeID | internal/provider/gamemode_resource.go:110-124 | the id Create stores imports back to the same target |
| BedResource.BedOffset | internal/provider/bed_resource.go:104-117 | exactly the four facings have an offset, each a unit step |
| BedResource.OppositeFacings | internal/provider/bed_resource.go:104-117 | north and south, and east and west, step in opposite directions along one axis |
| BedResource.HeadBesideFoot | internal/provider/bed_resource.go:152-153 | the head is never the foot's block, and barring overflow it is the neighbour one step away |
| BedResource.Place | internal/provider/bed_resource.go:139-160 | the foot goes first; a failed foot sends nothing more; a failed head, with rollback, clears the foot once and returns the head's error |
| BedResource.Create | internal/provider/bed_resource.go:119-165 | an invalid facing sends nothing; otherwise foot then head with rollback, and on success `bed-x-y-z-D` is the id |
| BedResource.Read | internal/provider/bed_resource.go:167-177 | keeps the state and sends nothing |
| BedResource.Update | internal/provider/bed_resource.go:179-221 | the same placement without rollback, storing the plan |
| BedResource.Delete | internal/provider/bed_resource.go:223-251 | clears the foot, then the head only when the stored facing is valid; errors are ignored |
| BedResource.BlocksNoBlank | internal/provider/bed_resource.go:139-155 | the block states hold no blank when material and facing hold none |
| BedResource.RollbackClearsFoot | internal/provider/bed_resource.go:146-160 | the rollback clears the very block the foot was placed in |
| BedResource.ClearHeadClearsHead | internal/provider/bed_resource.go:231-250 | clearing the head clears the block the head was placed in |
| BedResource.DeleteClearsPlaced | internal/provider/bed_resource.go:223-251 | for a valid facing Delete clears exactly the blocks Create placed, in the same order |
| ChestResource.Material | internal/provider/chest_resource.go:103-116 | a trapped chest exactly when `trapped`, else a plain chest |
| ChestResource.RightBesideLeft | internal/provider/chest_resource.go:126-134 | the right half is never the left's block, and barring overflow it is x + 1 |
| ChestResource.PlaceDouble | internal/provider/chest_resource.go:126-139 | left half first; a failed left sends nothing more; a failed right, with rollback, clears the left once and returns the right's error |
| ChestResource.Place | internal/provider/chest_resource.go:119-142 | `single` sends one `[type=single,...]` block; `double` places both halves; any other size sends nothing and is the invalid-size error |
| ChestResource.Create | internal/provider/chest_resource.go:89-148 | places with rollback and, on success, stores `chest-x-y-z` as the id |
| ChestResource.Read | internal/provider/chest_resource.go:150-159 | keeps the state and sends nothing |
| ChestResource.Update | internal/provider/chest_resource.go:161-218 | the same placement without rollback, storing the plan |
| ChestResource.Delete | internal/provider/chest_resource.go:220-238 | clears (x,y,z), and the right half only for a double chest; errors are ignored |
| ChestResource.BlocksNoBlank | internal/provider/chest_resource.go:119-134 | the chest block states hold no blank |
| ChestResource.ClearLeftClearsPlaced | internal/provider/chest_resource.go:136-139 | the rollback and the first delete clear the block the single chest or the left half was placed in |
| ChestResource.ClearRightClearsPlaced | internal/provider/chest_resource.go:234-237 | the second delete clears the block the right half was placed in |
| ChestResource.HalvesDistinct | internal/provider/chest_resource.go:234-237 | the two halves are different blocks, so clearing one never clears the other |
| StairsResource.Create | internal/provider/stairs_resource.go:118-161 | sends one `setblock` with facing, half and shape unvalidated and waterlogged defaulted to false; on success `stairs-x-y-z` is the id |
| StairsResource.Read | internal/provider/stairs_resource.go:164-173 | keeps the state and sends nothing |
| StairsResource.Update | internal/provider/stairs_resource.go:175-210 | re-sends the same command and stores the plan |
| StairsResource.Delete | internal/provider/stairs_resource.go:212-232 | clears the position once; its failure is an error |
| StairsResource.BlockStateCarriesValues | internal/provider/stairs_resource.go:132-152 | the block state carries the four values in order, then `waterlogged=true` only when it was set to true, `waterlogged=false` when set to false or unset |
| StairsResource.DeleteClearsPlaced | internal/provider/stairs_resource.go:212-232 | Delete clears the very block Create placed |
| FillResource.Create | internal/provider/fill_resource.go:130-162 | sends one `fill` with the material and both corners; on success the material, a bar and the two corners (`sx,sy,sz->ex,ey,ez`) are the id |
| FillResource.Read | internal/provider/fill_resource.go:164-174 | keeps the state and sends nothing |
| FillResource.Update | internal/provider/fill_resource.go:176-211 | re-fills and recomputes the id from the new material |
| FillResource.Delete | internal/provider/fill_resource.go:213-235 | fills the same cuboid with air; its failure is an error |
| FillResource.DeleteClearsRegion | internal/provider/fill_resource.go:227-234 | Delete's `fill` has Create's corners word for word, and only the material differs: air |
| FillResource.IDNamesMaterial | internal/provider/fill_resource.go:148-158 | the id begins with the material, up to the first bar |
| FillResource.IDsDifferByMaterial | internal/provider/fill_resource.go:191-207 | fills of the same cuboid with different materials get different ids |
| EntityResource.Create | internal/provider/entity_resource.go:95-122 | one `summon` marked with the generated id, which becomes the id only after a successful send |
| EntityResource.Read | internal/provider/entity_resource.go:124-136 | keeps the state and sends nothing |
| EntityResource.Update | internal/provider/entity_resource.go:138-148 | sends nothing and stores the plan |
| EntityResource.Delete | internal/provider/entity_resource.go:150-169 | kill then clear by the stored type and id; a failure is an error |
| EntityResource.DeleteTargetsCreated | internal/provider/entity_resource.go:110-118 | Delete kills by exactly the marker the summon gave, and by no other id's marker |
| ZombieResource.DefaultedFlags | internal/provider/zombie_resource.go:157-168 | every flag becomes known, a known one keeps its value, a null one becomes false, and defaulting twice changes nothing |
| ZombieResource.DefaultFlags | internal/provider/zombie_resource.go:157-168 | overwriting the flags field by field gives the defaulted plan |
| ZombieResource.Create | internal/provider/zombie_resource.go:142-197 | one summon with the defaulted flags and the generated id, which becomes the id only on success |
| ZombieResource.Read | internal/provider/zombie_resource.go:199-209 | keeps the state and sends nothing |
| ZombieResource.Update | internal/provider/zombie_resource.go:211-221 | sends nothing and stores the plan |
| ZombieResource.Delete | internal/provider/zombie_resource.go:223-242 | kill then clear `minecraft:zombie` by the stored id; a failure is an error |
| ZombieResource.DeleteTargetsCreated | internal/provider/zombie_resource.go:175-193 | Delete kills by the id the summon was given |
| SheepResource.Create | internal/provider/sheep_resource.go:111-143 | one summon with the colour lowered, sheared defaulted to false and the generated id, which becomes the id only on success |
| SheepResource.Read | internal/provider/sheep_resource.go:145-154 | keeps the state and sends nothing |
| SheepResource.Update | internal/provider/sheep_resource.go:156-165 | sends nothing and stores the plan |
| SheepResource.Delete | internal/provider/sheep_resource.go:167-186 | kill then clear `minecraft:sheep` by the stored id; a failure is an error |
| SheepResource.ColorLowered | internal/provider/sheep_resource.go:130-139 | the colour sent has no upper-case letter, and colours differing only in case summon the same sheep |
| VillagerResource.TagText | internal/provider/summon_villager_resource.go:102-105 | the data tag passed on is the attribute's value when it is known, "" otherwise |
| VillagerResource.TagIsValue | internal/provider/summon_villager_resource.go:102-105 | for a well-formed attribute the tag passed on is its value |
| VillagerResource.Create | internal/provider/summon_villager_resource.go:84-116 | one summon with the coordinates, the generated id and the tag; the id is stored only on success |
| VillagerResource.Read | internal/provider/summon_villager_resource.go:118-130 | keeps the state and sends nothing |
| VillagerResource.Update | internal/provider/summon_villager_resource.go:132-142 | sends nothing and stores the plan |
| VillagerResource.Delete | internal/provider/summon_villager_resource.go:144-162 | removes the villager by the stored id; a failure is an error |
| VillagerResource.DeleteTargetsCreated | internal/provider/summon_villager_resource.go:84-162 | a state Create stored is removed by the id the summon was given, and different ids give different removals |
| OpResource.Create | internal/provider/op_resource.go:71-101 | a blank trimmed player sends nothing and is an error; otherwise `op P` with the trimmed player, who becomes the id on success |
| OpResource.Read | internal/provider/op_resource.go:103-114 | keeps the state and sends nothing |
| OpResource.Update | internal/provider/op_resource.go:116-126 | sends nothing and stores the plan |
| OpResource.Delete | internal/provider/op_resource.go:128-152 | a blank player sends nothing and is no error; otherwise `deop P`, whose failure is an error |
| OpResource.ImportState | internal/provider/op_resource.go:154-165 | a blank id is an error; otherwise the trimmed id is both id and player |
| OpResource.CreatedRoundTrips | internal/provider/op_resource.go:92-97 | the id Create stores imports back to a state with that player, and Delete from either state deops exactly the player Create opped |
| DaylockResource.Create | internal/provider/daylock_resource.go:66-90 | sets the lock as planned and stores the id `default` only on success |
| DaylockResource.Read | internal/provider/daylock_resource.go:92-100 | keeps the state and sends nothing |
| DaylockResource.UpdatedID | internal/provider/daylock_resource.go:116-124 | the planned id when it is known, else `default` |
| DaylockResource.Update | internal/provider/daylock_resource.go:102-127 | re-applies the lock and fills in the id only when it is missing |
| DaylockResource.Delete | internal/provider/daylock_resource.go:129-141 | turns the lock off; a failure is only a warning, so Delete never fails |
| DaylockResource.ImportState | internal/provider/daylock_resource.go:143-152 | exactly the id `default` is accepted, and it sets only the id |
| DaylockResource.SingletonEverywhere | internal/provider/daylock_resource.go:66-152 | every state the resource stores has the id `default`, and that is exactly the id import accepts |
| BanResource.Create | internal/provider/ban_resource.go:43-66 | bans the player, with the reason when given, and on success stores the player as id |
| BanResource.Read | internal/provider/ban_resource.go:68-69 | keeps the state and sends nothing |
| BanResource.Update | internal/provider/ban_resource.go:70-93 | bans again with the planned values and keeps the player as id |
| BanResource.Delete | internal/provider/ban_resource.go:94-113 | lifts the ban on the stored player; a failure is an error |
| BanResource.DeleteUnbansBanned | internal/provider/ban_resource.go:57-112 | the stored id is the banned player, and Delete unbans exactly the player the `ban` named |

## Left out

- The RCON connection and its setup (`New`, the address split and port parse) are network I/O. They are replaced by `Transport.Conn`, whose replies are a parameter.
- `GetPlayer` is a stub that always returns nil, and no resource uses it.
- The Terraform plugin framework is not modelled: schemas, plan modifiers, `Plan.Get`/`State.Get`/`State.Set` and their diagnostics. Plans and states are plain records, and `Framework.Outcome` is what a call hands back. `GetClient` failures are not modelled either.
- Diagnostic wording is not modelled. Only the error/warning distinction and the condition that raised each diagnostic are.
- `context.Context` parameters carry nothing the model uses.
- UUID generation is not modelled: the freshly generated id is the parameter `uuid` of the entity, zombie, sheep and villager Create.
- The command text of `CreateZombie`, `CreateSheep`, `SummonVillager`, `DeleteVillager`, `SetDayLock` and `UnbanPlayer` is not part of this model. Their bodies are not in the modelled files, so the log records only that each was called, with which arguments and in which order.
- Zombie `health` and its `float32` conversion are floating point and are not modelled.
- ImportState of chest, bed, stairs, fill, entity, zombie, sheep, villager and team copies the import id into `id` through the framework's passthrough, and nothing else is modelled for them.
- Text.ToLower: lowers A to Z, the dotted capital I (to `i`) and the Kelvin sign (to `k`), the only letters whose lower case Go's `strings.ToLower` makes ASCII; other Unicode capitals are kept. This is exact for the comparisons with `true`/`false` and the mode names, and weaker for the colour text of SheepResource.SummonCall, Client.SetTeamColor and TeamResource.ColorStep.
- Strings are sequences of Unicode characters. Go's UTF-8 byte strings, and invalid encodings in them, are not modelled.
- GamemodeResource.ImportState: when the id is neither `default` nor `player:name`, the source has already set `id` before it records the error. The model stores no state for that case, since the failed import discards it.
- DaylockResource.ImportState: only `id` is set, and `enabled` is left null.
