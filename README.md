# chat_thief command economy, modelled in Dafny

chat_thief is a Twitch chat bot that runs an economy of sound effects. A
viewer may play a sound-effect command only if they are one of its owners.
Commands have a price in cool points. Viewers buy, steal, give, share and
donate commands, vote for peace or revolution, and ask for help. Stream
lords and stream gods have extra commands of their own.

This project models the part of the bot that decides what a chat message
does and carries that decision out against the bot's records:

- `Ledger` (ledger.dfy): the persistence records the handlers read and
  write, as one ledger. It holds the owners of each command, the price of
  each command, each user's cool points, each user's vote and ride-or-die
  pick, and the issues, cube bets and play requests the handlers append.
  `Books` is its value. `Store` is the mutable object whose methods change
  one field at a time.
- `CommandStealer` (command_stealer.dfy): `CommandStealer.steal`. A thief
  whose cool points cover the price takes the command from the victim, and
  the price triples, given that `increase_cost` adds its amount.
- `PrizeDropper` (prize_dropper.dfy): `random_user`, which draws a viewer
  who is neither invalid nor blacklisted; `_is_int_between`;
  `drop_effect`; and `dropreward`, which gives a random sound effect to
  the last valid speaker of the chat log.
- `CommandRouter` (command_router.dfy): `CommandRouter.build_response`,
  `_process_command` and `random_not_you_user`. The ordered `if` chain is
  the function `Process`, which maps a message to a `Decision`. The method
  `Execute` carries a decision out against the store. Its postcondition is
  the predicate `Executed`.
- `CommandParser` (command_parser.dfy): the older dispatcher
  `CommandParser.build_response`. Its `if` chain is the function `Respond`,
  and the method `Carry` carries out the resulting `Action`. Two loops are
  methods proved against their own specifications:
  - `donate` is `Donate`, specified by `Donated` and `GiftsFrom`;
  - the multi-buy is `BuyRandom`, whose reply is built as the code writes
    it (see Findings).
  The `coup` threshold, the `props` default target and `try_soundeffect`
  are modelled as well.
- `Common` (common.dfy): the Python string handling the handlers rely on.
  This covers `" ".join`, `split(sep)[0]`, `int(s)`, `str(n)`, dict
  literals and the `!`-prefixed listings.

Modelling conventions:

- Randomness is a nondeterministic choice (`:|`). The random picks a
  decision made are returned as `Draws` (router) or `Trace` (parser), so
  contracts can say where each pick came from.
- The recent-viewer pool, the sound-effect library, the chat log's lines,
  the user and command record lists, the stopwatch state, and the
  collaborators' answers (`total_users`, `LaLibre.threshold`,
  `have_tables_turned`, `User.stats`, `total_cool_points`,
  `SoundeffectRequest.formatted_stats`, `User.buy`) are parameters.
- The argument parsers (`PermsParser`, `PropsParser`,
  `RequestApproverParser`, the time parser, `BasicInfoRouter`) are not part
  of this model. Their results are inputs (`Parsed`).
- A call into any other collaborator is the response `Collaborator(call)`.
  The ledger changes that collaborator makes are not modelled.
- A Python exception that escapes a handler is the response
  `Raises(class, message)`. The message is the text the source raises it
  with, or empty when Python raises it itself; Python's own messages are
  not modelled.

## Model

| member | source | states |
|---|---|---|
| Common.Bang | chat_thief/command_router.py:263 | one `!`-prefixed entry per name, in the same order |
| Common.Lookup | chat_thief/command_router.py:261 | a found text is the table's entry for the key; no result only when no entry has the key |
| Common.Pairs | chat_thief/command_router.py:50-66 | the dict literal pairs the i-th key with the i-th text |
| Common.Keys | chat_thief/command_router.py:263 | `HELP_COMMANDS.keys()` lists the keys in insertion order |
| Common.Before | chat_thief/prize_dropper.py:62 | `line.split(":")[0]` is a prefix of the line, contains no `:`, and is followed by `:` when shorter than the line |
| Common.ParseInt | chat_thief/command_router.py:180 | `int(s)` succeeds exactly on a non-empty digit string with an optional sign |
| Common.Decimal | chat_thief/command_parser.py:133 | `str(n)` of a natural number is a non-empty digit string |
| Common.StripBang | chat_thief/command_router.py:259-260 | one leading `!` is removed, and only when present |
| Common.DigitsOfDecimal | chat_thief/prize_dropper.py:72 | reading back the digits of `str(n)` gives n |
| Common.ParseIntOfDecimal | chat_thief/prize_dropper.py:72 | `int(str(n)) == n` and `int("-" + str(n)) == -n` |
| Ledger.Books.CommandsOf | chat_thief/command_parser.py:82 | a user's commands are exactly those whose owners include the user |
| Ledger.ListCommands | chat_thief/command_parser.py:82 | `User(u).commands()` lists each of u's commands exactly once |
| Ledger.Allow | chat_thief/commands/command_stealer.py:16 | `allow_user` adds the user to this command's owners; no other command and no other record changes |
| Ledger.Unallow | chat_thief/commands/command_stealer.py:17 | `unallow_user` removes the user from this command's owners; no other command and no other record changes |
| Ledger.CostIncreased | chat_thief/commands/command_stealer.py:18 | `increase_cost` raises this command's price by the amount; other prices and records are unchanged; a non-negative raise keeps every price at least 1 |
| Ledger.Store.AllowUser | chat_thief/commands/command_stealer.py:16 | the store becomes `Allow` of its old value |
| Ledger.Store.UnallowUser | chat_thief/commands/command_stealer.py:17 | the store becomes `Unallow` of its old value |
| Ledger.Store.IncreaseCost | chat_thief/commands/command_stealer.py:18 | the store becomes `CostIncreased` of its old value |
| Ledger.Store.CastVote | chat_thief/command_router.py:120-125 | only the caller's vote changes, to the choice |
| Ledger.Store.SaveIssue | chat_thief/command_router.py:132 | one issue by the caller is appended; nothing else changes |
| Ledger.Store.SaveBet | chat_thief/command_router.py:169 | one bet by the caller is appended; nothing else changes |
| Ledger.Store.PurgeBets | chat_thief/command_router.py:182 | every bet is dropped; nothing else changes |
| Ledger.Store.SetRideOrDie | chat_thief/command_router.py:286 | only the caller's ride-or-die pick changes |
| Ledger.Store.SavePlayRequest | chat_thief/command_router.py:498 | one play request is appended; nothing else changes |
| Ledger.Store.Bankrupt | chat_thief/command_router.py:313 | only this user's cool points change, to 0 |
| CommandStealer.StoleIsNotBroke | chat_thief/commands/command_stealer.py:19-21 | the success reply and the refusal reply always differ |
| CommandStealer.Steal | chat_thief/commands/command_stealer.py:11-21 | a thief who cannot pay is refused and nothing changes; with exactly enough or more, the thief gains the command, a named victim loses it (a missing one removes nobody), other owners keep it, the price triples, nothing else changes and cool points are not spent; the reply names the victim as Python renders it |
| CommandStealer.StealSucceedsIffAffordable | chat_thief/commands/command_stealer.py:15-21 | the reply is the success reply if and only if the thief's cool points cover the price |
| CommandStealer.StealRaisesCost | chat_thief/commands/command_stealer.py:18 | with every price at least 1, a successful steal strictly raises the price and keeps every price at least 1 |
| CommandStealer.StealFromNonOwner | chat_thief/commands/command_stealer.py:15-19 | the victim's ownership is never checked: stealing from a non-owner still succeeds and only adds the thief |
| CommandStealer.StealWithoutVictim | chat_thief/commands/command_stealer.py:11-21 | a steal with no victim still runs: a thief who can pay gains the command, the price triples, and the reply reads "stole from @None" |
| CommandStealer.StealFromSelf | chat_thief/commands/command_stealer.py:16-17 | a thief who steals from themself ends without the command |
| CommandStealer.StealIn | chat_thief/commands/command_stealer.py:11-21 | the store and the reply after `steal()`, with or without a victim, are exactly what `Steal` gives |
| PrizeDropper.InvalidUsers | chat_thief/prize_dropper.py:12 | INVALID_USERS is exactly nightbot, `.tim.twitch.tv` and the stream gods |
| PrizeDropper.IsIntBetween | chat_thief/prize_dropper.py:70-74 | `_is_int_between`: the text parses as an integer in range(1, 100), and a text `int` refuses is not between |
| PrizeDropper.RandomUser | chat_thief/prize_dropper.py:21-32 | a drawn user is in the pool, not invalid and not blacklisted; a user is drawn exactly when the pool holds an eligible one |
| PrizeDropper.IsIntBetweenExactly | chat_thief/prize_dropper.py:70-74 | on the decimal text of n the check holds exactly for 1..99; it never holds for a negative number |
| PrizeDropper.DropEffect | chat_thief/prize_dropper.py:35-39 | an invalid user gets None and nothing changes; anyone else becomes an owner of the sound effect and gets the access message |
| PrizeDropper.KeptLines | chat_thief/prize_dropper.py:58-64 | the comprehension keeps exactly the non-empty lines that are not the connection notice and whose speaker is not invalid |
| PrizeDropper.KeptLinesInOrder | chat_thief/prize_dropper.py:58-64 | the comprehension keeps the log's order: no lines give nothing, and one more line appends that line exactly when it is kept |
| PrizeDropper.LastKept | chat_thief/prize_dropper.py:65 | the position of a kept line after which no line is kept; none only when no line is kept |
| PrizeDropper.RewardedUser | chat_thief/prize_dropper.py:56-65 | the speaker of `chat_lines[-1]`: none only when no line is kept, and never an invalid user |
| PrizeDropper.KeptLinesEndWithLastKept | chat_thief/prize_dropper.py:58-65 | `chat_lines[-1]` exists exactly when some line is kept, and it is the last kept line of the log |
| PrizeDropper.RewardedUserSpokeLast | chat_thief/prize_dropper.py:56-65 | the rewarded user is the speaker of the last kept line and is never an invalid user; there is none only when no line is kept |
| PrizeDropper.DropReward | chat_thief/prize_dropper.py:56-67 | no kept line raises IndexError; an empty library raises ValueError; otherwise the last speaker gets a library sound effect and the access message |
| PrizeDropper.DropToUser | chat_thief/prize_dropper.py:77-81 | an empty library raises; an invalid user gets nothing; anyone else gets a library sound effect |
| CommandRouter.Bankrupted | chat_thief/command_router.py:312-313 | every listed user ends at 0 cool points; every other user keeps theirs |
| CommandRouter.Revoked | chat_thief/command_router.py:314-319 | every listed command ends with no owner; every other command keeps its owners |
| CommandRouter.BankruptAll | chat_thief/command_router.py:312-313 | the loop leaves cool points as `Bankrupted` gives them and changes nothing else |
| CommandRouter.RevokeOwners | chat_thief/command_router.py:317-319 | unallowing each owner in turn leaves the command with no owner |
| CommandRouter.RevokeAll | chat_thief/command_router.py:314-319 | the loop leaves ownership as `Revoked` gives it and changes nothing else |
| CommandRouter.RunDoOver | chat_thief/command_router.py:310-320 | `do_over` bankrupts the listed users, then empties the listed commands |
| CommandRouter.Process | chat_thief/command_router.py:113-194 | the first stage of `_process_command`: the first branch whose test holds decides, in source order, and a command no branch takes goes on to `ProcessTargets` |
| CommandRouter.ProcessTargets | chat_thief/command_router.py:200-289 | the `me`, donate, deny, approve, help, detract and support branches, in source order; anything else goes on to `ProcessAdmin` |
| CommandRouter.ProcessAdmin | chat_thief/command_router.py:295-362 | the soundeffect, do_over, revive, silence and perms branches, in source order; anything else goes on to `ProcessRandom` |
| CommandRouter.ProcessRandom | chat_thief/command_router.py:368-487 | the props, share, buy, steal, give and drop branches, in source order; anything else goes to `FallThrough` |
| CommandRouter.FallThrough | chat_thief/command_router.py:493-498 | a lord's OBS command runs; any other non-empty command becomes a play request; an empty one does nothing |
| CommandRouter.Route | chat_thief/command_router.py:91-111 | `build_response`: nightbot gets nothing, a basic-info answer wins, and otherwise `_process_command` decides |
| CommandRouter.Executed | chat_thief/command_router.py:113-498 | for each decision, the reply, the draws and the ledger after it: each handler's record change, each collaborator call with the ledger unchanged, and each reply text of the source |
| CommandRouter.StealDone | chat_thief/command_router.py:437-447 | the steal branch: the two random draws, then `CommandStealer.steal` on the victim and command, or an opaque call when the command is missing |
| CommandRouter.HandleProps | chat_thief/command_router.py:368-379 | a missing or "random" target is replaced by a pool user other than the caller (`random_not_you_user`, line 500), drawn whenever such a user exists; a named target draws nothing |
| CommandRouter.HandleShare | chat_thief/command_router.py:381-407 | a "random" command is one the caller owns, and raises when the caller owns none; a "random" friend raises UnboundLocalError; the sharer is called only with both a command and a friend |
| CommandRouter.HandleSteal | chat_thief/command_router.py:437-447 | "random random" picks a victim other than the caller (none only when nobody is eligible), then one of the victim's commands, then steals as `Steal` says; a named command goes to `Steal` with the parsed victim, even a missing one; only a missing command stays an opaque call |
| CommandRouter.HandleGive | chat_thief/command_router.py:449-470 | a "random" command raises TypeError; a "random" friend excludes only the caller and is drawn whenever another eligible user exists; no friend raises ValueError |
| CommandRouter.Execute | chat_thief/command_router.py:113-498 | carrying out a decision gives the reply, the draws and the new ledger `Executed` describes, for every decision `Process` can make |
| CommandRouter.PassesFirstStage | chat_thief/command_router.py:114-194 | a command the first branches do not take reaches the target branches unchanged |
| CommandRouter.PassesTargetStage | chat_thief/command_router.py:200-289 | a command the user-or-command branches do not take reaches the admin branches |
| CommandRouter.PassesAdminStage | chat_thief/command_router.py:295-362 | a command the request, reset and moderation branches do not take reaches the random branches |
| CommandRouter.PassesRandomStage | chat_thief/command_router.py:368-487 | a command the random and drop branches do not take reaches the fall-through |
| CommandRouter.PassesEveryStage | chat_thief/command_router.py:113-498 | a command no stage takes ends in the fall-through |
| CommandRouter.NightbotIgnored | chat_thief/command_router.py:97-98 | nightbot's messages get no reply and decide nothing |
| CommandRouter.UnnamedCommandFallsThrough | chat_thief/command_router.py:493-498 | a command no branch names runs as an OBS command for a lord, becomes a play request when not empty, and otherwise does nothing |
| CommandRouter.GatedCommandOutsideTier | chat_thief/command_router.py:114-487 | a god, lord, chosen or beginbotbot command from outside that tier reaches no gated branch and ends as a play request unless it is a lord's OBS command |
| CommandRouter.ObsOnlyForLords | chat_thief/command_router.py:493-498 | an OBS command runs only for a stream lord; for anyone else it becomes a play request |
| CommandRouter.VoteRouted | chat_thief/command_router.py:120-125 | `peace` and `revolution` vote for themselves, `vote` for its first argument |
| CommandRouter.VoteAlwaysThanks | chat_thief/command_router.py:120-127 | every vote is thanked, and only the caller's vote changes |
| CommandRouter.VoteWithoutChoiceRaises | chat_thief/command_router.py:121-122 | `vote` without an argument raises IndexError |
| CommandRouter.IssueRouted | chat_thief/command_router.py:129-135 | `issue`/`bug` files the words when there are any and asks for a description otherwise |
| CommandRouter.IssueNeedsDescription | chat_thief/command_router.py:134-135 | an issue without words is answered with the request for a description, and nothing is saved |
| CommandRouter.IssueSaved | chat_thief/command_router.py:130-133 | an issue with words saves them, joined by spaces, as the caller's issue; nothing else changes |
| CommandRouter.BetRouted | chat_thief/command_router.py:166-174 | `bet` places a bet of the parsed amount unless the stopwatch runs |
| CommandRouter.BetRefusedWhileSolving | chat_thief/command_router.py:173-174 | while the stopwatch runs a bet is refused and nothing is saved |
| CommandRouter.BetSaved | chat_thief/command_router.py:167-172 | otherwise exactly one bet, the caller's with the parsed amount, is appended |
| CommandRouter.LoveRouted | chat_thief/command_router.py:282-287 | `love` with only a user target refuses self-love and otherwise picks a ride or die |
| CommandRouter.LoveYourself | chat_thief/command_router.py:283-284 | loving yourself is refused and changes nothing |
| CommandRouter.LoveMakesRideOrDie | chat_thief/command_router.py:285-287 | loving another user makes them the caller's ride or die, and nothing else changes |
| CommandRouter.DetractWithoutCommandFallsThrough | chat_thief/command_router.py:266-273 | `hate` without a lone command target falls through to the end of the chain |
| CommandRouter.PermsNeedsATarget | chat_thief/command_router.py:347-362 | `perms` with words naming neither a user nor a command raises ValueError; otherwise the fetcher answers |
| CommandRouter.DoOverRouted | chat_thief/command_router.py:310 | `do_over` from beginbotbot is the reset |
| CommandRouter.DoOverEmptiesEverything | chat_thief/command_router.py:310-320 | after `do_over` every listed user has 0 cool points and every listed command has no owner; all other points and owners are as they were, and every other record of the ledger is unchanged |
| CommandRouter.LookupFindsEntry | chat_thief/command_router.py:261 | in a dict literal with distinct keys, every key finds its own text |
| CommandRouter.HelpOnTable | chat_thief/command_router.py:256-264 | on a well-keyed table `help !name` and `help name` give name's text, an unknown name raises KeyError, and `help` alone lists every key |
| CommandRouter.HelpTopicsDistinct | chat_thief/command_router.py:50-66 | the router's help topics are pairwise distinct and none starts with `!` |
| CommandRouter.WellKeyedPairs | chat_thief/command_router.py:50-66 | a table built from distinct keys without a `!` is well keyed |
| CommandRouter.HelpCommandsWellKeyed | chat_thief/command_router.py:50-66 | HELP_COMMANDS is well keyed, so `HelpOnTable` applies to every topic |
| CommandRouter.HelpRouted | chat_thief/command_router.py:256-264 | `help` is answered from the help table |
| CommandRouter.HelpAnswersEntry | chat_thief/command_router.py:256-264 | on any well-keyed help table, `help name` and `help !name` answer with that entry's text, and nothing changes |
| CommandRouter.HelpAnswersEveryTopic | chat_thief/command_router.py:50-66 | with the router's HELP_COMMANDS, `help name` and `help !name` answer with that entry's text for every entry of the table, and nothing changes |
| CommandRouter.CoupRouted | chat_thief/command_router.py:185 | `coup` from any user is the coup |
| CommandRouter.CoupWaitsForTheTide | chat_thief/command_router.py:185-194 | a tide of "peace" or "revolution" attempts the coup; any other tide is answered with the threshold and the votes still needed; the ledger is unchanged |
| CommandRouter.MeRouted | chat_thief/command_router.py:200 | `me` shows the caller |
| CommandRouter.MeShowsCommands | chat_thief/command_router.py:200-210 | `me` answers with the stats alone when the caller owns nothing, and otherwise with the stats, a bar and every command of the caller, `!`-prefixed; the ledger is unchanged |
| CommandRouter.RequestsFallBack | chat_thief/command_router.py:150-154 | `requests` answers with the request stats, or with the no-requests text when there are none; the ledger is unchanged |
| CommandRouter.EconomyReportsTotal | chat_thief/command_router.py:159-161 | `economy` answers with the market's total cool points; the ledger is unchanged |
| CommandRouter.StealRouted | chat_thief/command_router.py:437 | `steal` takes the parsed victim and command |
| CommandRouter.StealNamedCommand | chat_thief/command_router.py:437-447 | with a command named and not "random random", the reply and the new ledger are exactly what `Steal` gives for the parsed victim, even a missing one |
| CommandRouter.MeListsCommands | chat_thief/command_router.py:203-210 | the `me` text is the stats alone when the caller owns nothing, and otherwise the stats followed by the `!`-listed commands |
| CommandParser.Tiers | chat_thief/command_parser.py:296 | the lists STREAM_LORDS and STREAM_GODS have the same members as the router's tiers |
| CommandParser.DonatedUsers | chat_thief/command_parser.py:82-89 | over distinct commands, each donated command ends with its old owners moved as its draw says; every other command keeps its owners; only ownership changes |
| CommandParser.DonationMovesOwnership | chat_thief/command_parser.py:82-89 | each recipient who is a non-empty name did not own the command, gains it, and the donor loses it; a command whose draw is missing or empty stays with the donor; every other command is untouched |
| CommandParser.Entry | chat_thief/command_parser.py:86 | `results.get(u)` has an entry exactly for the recipients |
| CommandParser.AddGift | chat_thief/command_parser.py:86-87 | only u's entry changes, growing by the command or added at the end; no recipient gets two entries |
| CommandParser.GiftedTo | chat_thief/command_parser.py:82-87 | the commands given to u are none exactly when u is empty or no draw chose u |
| CommandParser.GiftsByRecipient | chat_thief/command_parser.py:81-90 | the dict has one entry per recipient, listing exactly the commands drawn for them in loop order |
| CommandParser.GiftLines | chat_thief/command_parser.py:90 | one gift line per dict entry, in insertion order |
| CommandParser.Donate | chat_thief/command_parser.py:79-90 | the loop goes over each of the donor's commands once, draws each recipient among pool users who did not own the command (none only when nobody is eligible), gives the command only to a non-empty name, as `if new_user:` does, leaves the ledger as `Donated` says, and replies with the gift lines |
| CommandParser.DonateReplyPerRecipient | chat_thief/command_parser.py:90 | the reply has one line per distinct recipient, naming exactly that recipient's commands; everyone drawn appears |
| CommandParser.EntryOfListed | chat_thief/command_parser.py:90 | each dict entry is what looking up its recipient gives |
| CommandParser.DropFirst | chat_thief/command_parser.py:197 | Python's `s[k:]`: what is left after the first k characters, or nothing |
| CommandParser.PurchasedStripsPrefix | chat_thief/command_parser.py:197 | the intended slice gives back exactly what follows the buyer's `@user purchased:` prefix |
| CommandParser.PurchasedAsWrittenMisses | chat_thief/command_parser.py:197 | for every buyer and non-empty purchase, the 23-character cut as written gives back the purchase exactly when the buyer's name has 11 characters |
| CommandParser.Marked | chat_thief/command_parser.py:197 | one `!`-prefixed entry per buy reply, in order, each cut by 23 characters as the code writes it |
| CommandParser.BobBuysNothing | chat_thief/command_parser.py:192-197 | buyer "bob" with buy reply "@bob purchased:clap" is answered "@bob!" as written, and "@bob!clap" with the intended slice |
| CommandParser.MarkedAsIntended | chat_thief/command_parser.py:197 | the intended listing: one `!`-prefixed entry per buy reply, each cut by the buyer's own prefix |
| CommandParser.MarkedAsIntendedLists | chat_thief/command_parser.py:197 | the intended listing of the buyer's replies is exactly the `!`-prefixed purchases |
| CommandParser.BuyRandom | chat_thief/command_parser.py:192-197 | `buy X N` buys "random" exactly N times (none for N ≤ 0), records each call's reply, and answers with the buyer's name followed by `Marked` of the replies, as written |
| CommandParser.CoupThreshold | chat_thief/command_parser.py:125 | the threshold is an eighth of the users, rounded down |
| CommandParser.ParserHelpWellKeyed | chat_thief/command_parser.py:42-55 | this dispatcher's HELP_COMMANDS has distinct keys, none starting with `!` |
| CommandParser.Carry | chat_thief/command_parser.py:79-319 | carrying out an action gives the reply, the trace and the new ledger `Performed` describes, for every action `Respond` can give |
| CommandParser.Respond | chat_thief/command_parser.py:67-79 | `build_response`: a message that is not a command does nothing; a command goes to `Dispatch` |
| CommandParser.Dispatch | chat_thief/command_parser.py:79-139 | the donate, leaderboard, most_popular, steal, detract, support, coup and ballot branches, in source order; anything else goes on to `DispatchAccounts` |
| CommandParser.DispatchAccounts | chat_thief/command_parser.py:141-199 | the facts, paperup, me, perms, peasants, loserboard, economy and buy branches, in source order; anything else goes on to `DispatchGifts` |
| CommandParser.DispatchGifts | chat_thief/command_parser.py:202-267 | the dropeffect, dropreward, give, share, props and help branches, in source order; anything else goes on to `DispatchCasino` |
| CommandParser.DispatchCasino | chat_thief/command_parser.py:269-310 | the users, bets, bet, new_cube, cubed, so, tier-listing, approve and soundeffect branches, in source order; anything else goes to `TrySoundeffect` |
| CommandParser.TrySoundeffect | chat_thief/command_parser.py:312-319 | a lord's OBS command runs; anything else becomes a play request |
| CommandParser.Performed | chat_thief/command_parser.py:79-319 | for each action, the reply, the trace and the ledger after it: the donation, the steal, the ballots, the buys and each reply text of the source, with the ledger unchanged for each collaborator call |
| CommandParser.PassesOpening | chat_thief/command_parser.py:79-139 | a command the opening branches do not take reaches the account branches |
| CommandParser.PassesAccounts | chat_thief/command_parser.py:141-199 | a command the account branches do not take reaches the gift branches |
| CommandParser.PassesGifts | chat_thief/command_parser.py:202-267 | a command the gift branches do not take reaches the casino branches |
| CommandParser.PassesCasino | chat_thief/command_parser.py:269-312 | a command the casino branches do not take reaches `try_soundeffect` |
| CommandParser.PassesEveryBranch | chat_thief/command_parser.py:74-319 | a command no branch takes ends in `try_soundeffect` |
| CommandParser.NotACommandIgnored | chat_thief/command_parser.py:74 | a message that is not a command does nothing |
| CommandParser.UnnamedCommandTriesSoundeffect | chat_thief/command_parser.py:312-319 | a command no branch names gets no reply; it runs as a lord's OBS command without a ledger change, and otherwise becomes a play request |
| CommandParser.GatedOutsideTier | chat_thief/command_parser.py:124-299 | a god, lord, chosen or beginbotbot command from outside that tier ends in `try_soundeffect` |
| CommandParser.DetractWithoutCommandFallsThrough | chat_thief/command_parser.py:104-112 | `hate` without a lone command target falls through to `try_soundeffect` |
| CommandParser.DonateMovesEveryCommand | chat_thief/command_parser.py:79-90 | `donate` lists the caller's commands once each; each drawn recipient came from the pool, is valid, and did not own the command, and a missing draw means nobody was eligible; a non-empty recipient gains the command and the caller loses it; a missing or empty draw leaves the command; only ownership changes; the reply is the gift lines |
| CommandParser.StealRouted | chat_thief/command_parser.py:100-102 | `steal` with a command parsed does exactly what `Steal` says for the parsed victim, even a missing one |
| CommandParser.CoupRouted | chat_thief/command_parser.py:124 | `coup` from beginbotbot is the coup |
| CommandParser.CoupForBeginbotbot | chat_thief/command_parser.py:124-133 | the coup asks about an eighth of the users; a decisive tide turns the tides, otherwise the reply names the threshold; the ledger is unchanged |
| CommandParser.TideRouted | chat_thief/command_parser.py:135-139 | `revolution` and `peace` are ballots for themselves |
| CommandParser.TideVotes | chat_thief/command_parser.py:135-139 | the caller's vote becomes that side, and nothing else changes |
| CommandParser.MeRouted | chat_thief/command_parser.py:151 | `me` shows the caller |
| CommandParser.MeShowsCommands | chat_thief/command_parser.py:151-158 | `me` shows the stats, followed by every command of the caller when there is one; the ledger is unchanged |
| CommandParser.BuyRouted | chat_thief/command_parser.py:182-199 | `buy` with a count buys randomly; otherwise it buys the parsed command or "random" |
| CommandParser.BuyManyBuysRandom | chat_thief/command_parser.py:192-197 | a count that is not a number raises ValueError before any purchase; otherwise exactly N "random" purchases, one collaborator reply per purchase, and the reply the buyer's name followed by `Marked` of those replies |
| CommandParser.BuyOneBuysParsed | chat_thief/command_parser.py:187-199 | a single `buy` buys the parsed command, or "random" when none was parsed |
| CommandParser.GiveRouted | chat_thief/command_parser.py:208-227 | `give` of "random" raises NameError; any other command goes to `swap_perm` |
| CommandParser.DropEffectRaises | chat_thief/command_parser.py:202-203 | `dropeffect` from a god raises NameError |
| CommandParser.PropsRouted | chat_thief/command_parser.py:245-257 | `props` gives to the parsed target |
| CommandParser.PropsDefaultsToRandomUser | chat_thief/command_parser.py:250-257 | a missing or "random" target is replaced by a valid pool user other than the caller; a named target draws nothing; the ledger is unchanged |
| CommandParser.HelpRouted | chat_thief/command_parser.py:259-267 | `help` asks the help table |
| CommandParser.HelpAnswersFromTable | chat_thief/command_parser.py:259-267 | `help` is answered from this dispatcher's table, as `HelpOnTable` describes, and nothing changes |
| CommandParser.HelpAnswersEveryTopic | chat_thief/command_parser.py:259-267 | with this dispatcher's HELP_COMMANDS (lines 42-55), `help name` and `help !name` answer with that topic's text for every topic, and nothing changes |
| CommandParser.CubedParsesDuration | chat_thief/command_parser.py:281-283 | `cubed` needs a number first: no argument raises IndexError and a non-number raises ValueError |
| CommandParser.TierListings | chat_thief/command_parser.py:288-292 | `streamlords` and `streamgods` list the configured names, separated by spaces |
| CommandParser.ApproveNeedsUser | chat_thief/command_parser.py:294-299 | `approve` from a lord without an argument raises IndexError |

## Left out

- Logging, `print`, `success`, and the welcome of new users
  (`WelcomeCommittee.welcome_new_users`) have no effect on replies or
  records, so they are not modelled. `BLACKLISTED_LOG_USERS` only decides
  whether a message is logged.
- The argument parsers and `BasicInfoRouter` are not part of this model.
  Their results are inputs.
- Ledger.Store.Bankrupt: `User.bankrupt` is not part of this model. It is
  taken to set only the user's cool points to 0, leaving street cred and
  every other record as they were. The coup help text
  (command_router.py:63) speaks of losing street cred too, and
  CommandRouter.DoOverEmptiesEverything depends on this reading.
- The collaborators these handlers call are not part of this model:
  `BreakingNews`, `SoundeffectRequest`, `SFXVote`, `CommandBuyer`,
  `CommandGiver`, `CommandSharer`, `StreetCredTransfer`, `Donator`,
  `Revolution`, `LaLibre`, `CubeCasino`, `PermissionsFetcher`, `Airdrop`,
  `Facts`, `leaderboard`/`loserboard`, `shoutout`, `ApproveAllRequests`,
  `WelcomeCommittee.present_users`, `ChatLogs`, `Issue.delete/all`,
  `SoundeffectRequest.deny_doc_id`, and `User.buy/stats/total_users/
  total_cool_points/paperup/revive/kill`. Each call is the response
  `Collaborator(call)`, or its answer is an input. The ledger changes those
  collaborators make are not modelled.
- `Vote.vote` is modelled as setting the caller's vote. Its return value,
  which the parser's `peace`/`revolution` pass on, is left opaque.
- `os.system("so ...")` for OBS commands, and the read of `logs/chat.log`,
  are I/O. The command runs as an opaque call, and the log's lines are a
  parameter.
- PrizeDropper.RandomUser: the source keeps drawing forever when nobody in
  the pool is eligible. The model draws at random up to `budget` times,
  then picks an eligible user directly. It answers None only for a pool
  without an eligible user, so the endless loop becomes that None.
- `drop_soundeffect` and `drop_random_soundeffect_to_random_user` are not
  modelled beyond their crash, because every call of either raises.
  `drop_soundeffect` reads an undefined `args` (prize_dropper.py line 86),
  which raises NameError. The parser's `dropeffect` ends in that error
  (`CommandParser.DropEffectRaises`).
  `drop_random_soundeffect_to_random_user` prints `user` before assigning
  it (line 45), which raises UnboundLocalError. The router's `dropeffect`
  calls `Airdrop` instead.
- Common.ParseInt: Python's `int()` also accepts surrounding whitespace,
  underscores between digits and non-ASCII digits. The model accepts only
  ASCII digits with an optional sign.
- Ledger.ListCommands: the order in which `User.commands()` returns
  records is not modelled. Any order may be chosen, and every contract
  holds for all of them.
- CommandParser.CoupThreshold: `int(total / 8)` uses float division. It
  equals floor division for every count below 2^53, which is the only
  range the model covers.
- CommandParser.ApproveNeedsUser: the lower-casing of the approved name is
  not modelled, because the name only reaches a collaborator.
- CommandParser.BuyRandom: the ledger changes each `User.buy` makes are not
  modelled. The replies of the buy calls are an input function.
- Issue ids (`doc_id`) and the text rendering of `Issue.all` are not
  modelled, because both are produced by the record store.
- A `steal` whose command is missing passes None to the stealer, which
  builds `Command(None)`. The router's "random random" steal whose victim
  draw finds nobody calls `User(None).commands()`. Both are opaque calls,
  because those records are not part of this model. A steal that names a
  command but no victim is modelled in full. `Command.unallow_user(None)`
  is taken to remove nobody.
- The router's `give` blacklist is `[command.users()] + [user]`, a list
  whose first element is itself a list. The model therefore excludes only
  the caller, as that list does.
- The newer `Stealer` that tests/new_commands/test_stealer.py exercises
  (mana, a 70% chance of being caught, notoriety) is not part of this
  model. The model follows `command_stealer.py`, which both dispatchers
  call: the thief's cool points are compared with the price, the victim's
  ownership is never checked, and `increase_cost(cost * 2)` raises the price.
- Ledger.CostIncreased: `Command.increase_cost` is not part of this model.
  It is taken to add its amount to the price, which agrees with
  `increase_cost(300)` at command_router.py:118. The tripling that
  CommandStealer.Steal and StealRaisesCost state depends on that.

## Findings

| source | as written | input that shows it | evidently intended | confidence | as-written member | corrected member |
|---|---|---|---|---|---|---|
| chat_thief/command_parser.py:197 | the multi-buy reply cuts `len("@{self.user} purchased:")` characters from each buy reply; the literal lacks the `f` prefix, so it always cuts 23 characters | buyer "bob" with buy reply "@bob purchased:clap": 23 characters are cut and "!" is listed instead of "!clap" | cut the buyer's own `@user purchased:` prefix | not executed; the reply format of `User.buy` is not shown in the modelled files | CommandParser.Marked, used by CommandParser.BuyRandom (CommandParser.PurchasedAsWrittenMisses, CommandParser.BobBuysNothing) | CommandParser.MarkedAsIntended (CommandParser.MarkedAsIntendedLists, CommandParser.PurchasedStripsPrefix) |
