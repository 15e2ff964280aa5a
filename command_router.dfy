/** chat_thief/command_router.py: `CommandRouter.build_response` and
    `_process_command`. The ordered `if` chain is the pure function `Process`
    from the caller, the command, its arguments, the permission tiers and what
    the argument parsers made of the arguments, to a `Decision`. `Execute`
    carries a decision out against the ledger. */
module CommandRouter {
  import opened Common
  import opened Ledger
  import PrizeDropper
  import CommandStealer

  const Beginbot := "beginbot"
  const Beginbotbot := "beginbotbot"
  /** YOU_WERE_THE_CHOSEN: the two accounts some commands are reserved for. */
  const Chosen := {Beginbot, Beginbotbot}

  /** Static configuration: STREAM_LORDS, STREAM_GODS, OBS_COMMANDS and the
      router's HELP_COMMANDS table (`HelpCommands` below is its content). */
  datatype Config = Config(streamLords: set<string>, streamGods: set<string>, obsCommands: set<string>,
                           helpTable: seq<(string, string)>)

  /** A parser's `target_user` and `target_command`. */
  datatype Targets = Targets(targetUser: Option<string>, targetCommand: Option<string>)

  /** What the argument parsers, which are not part of this model, made of
      the arguments. Each field is the result of one `.parse()` call. */
  datatype Parsed = Parsed(
    perms: Targets,              // PermsParser(user, args)
    sharePerms: Targets,         // PermsParser(user, args, random_user=True, random_command=True)
    propsUser: Option<string>,   // PropsParser(user, args).target_user
    amount: int,                 // PropsParser(user, args).amount
    docId: Option<int>,          // RequestApproverParser(user, args).doc_id
    approver: Targets,           // RequestApproverParser(user, args) targets
    timeUser: Option<string>,    // ParseTime(..., allow_random_sfx, allow_random_user).target_user
    timeSfx: Option<string>,     // ... .target_sfx
    timeCommand: Option<string>) // ... .target_command

  /** A router decision. `Delegate` is a call into a collaborator that is not
      part of this model; the ledger changes it makes are not modelled. */
  datatype Decision =
    | Answer(response: Response)
    | Delegate(call: Call)
    | Coup
    | ShowMe
    | ShowRequests
    | MarketTotal
    | AskHelp(topic: seq<string>)
    | DeleteIssue(issueId: int)
    | DenyRequest(requestId: int)
    | UnknownTarget(words: seq<string>)
    | Cube(given: seq<string>)
    | RaiseCost(priced: string, amount: int)
    | CastVote(choice: string)
    | FileIssue(words: seq<string>)
    | PlaceBet(duration: int)
    | PickRideOrDie(chosen: string)
    | DoOver
    | Props(target: Option<string>)
    | Share(command: Option<string>, friend: Option<string>)
    | Steal(victim: Option<string>, sfx: Option<string>)
    | Give(command: Option<string>, friend: Option<string>)
    | DropReward
    | PlaySound(sound: string)

  /** An integer field is truthy when it is present and not 0. */
  predicate DocPresent(id: Option<int>)
  {
    id.Some? && id.value != 0
  }

  /** HELP_COMMANDS, as its keys and its texts in the same order. */
  const HelpTopics := ["me", "buy", "love", "hate", "steal", "share", "transfer", "props", "perms",
                       "donate", "issue", "most_popular", "coup", "soundeffect", "vote"]
  const HelpTexts := [
    "Info about yourself",
    "!buy COMMAND or !buy random - Buy a Command with Cool Points",
    "!love USER COMMAND - Show support for a command (Unmutes if theres Haters)",
    "!hate USER COMMAND - Vote to silence a command",
    "!steal COMMAND USER - steal a command from someone elses, cost Cool Points",
    "!share COMMAND USER - share access to a command",
    "!transfer COMMAND USER - transfer command to someone, costs no cool points",
    "!props @beginbot (AMOUNT_OF_STREET_CRED) - Give you street cred to beginbot",
    "!perms !clap OR !perms @beginbot - See who is allowed to use the !clap command",
    "!donate give away all your commands to random users",
    "!issue Description of a Bug - A bug you found you want Beginbot to look at",
    "!most_popular - Shows the most coveted commands",
    "trigger either a revolution or a crushing or the rebellion based on !vote - if you don't have enough Cool Points to afford to trigger a coup, you will be stripped of all your Street Cred and Cool Points",
    "!soundeffect YOUTUBE-ID YOUR_USERNAME 00:01 00:05 - Must be less than 5 second",
    "!vote (peace|revolution) - Where you stand when a coup happens.  Should all sounds be redistributed, or should the trouble makes lose their sounds and the rich get richer"
  ]
  const HelpCommands: seq<(string, string)> := Pairs(HelpTopics, HelpTexts)

  function HelpListing(table: seq<(string, string)>): string
  {
    "Call !help with a specfic command for more details: " + Join(Bang(Keys(table)), " ")
  }

  /** `!help [command]` against a help table. */
  function Help(table: seq<(string, string)>, args: seq<string>): Response
  {
    if |args| > 0 then
      match Lookup(table, StripBang(args[0]))
      case None => Raises("KeyError", "")
      case Some(text) => Reply(text)
    else Reply(HelpListing(table))
  }

  function VoteThanks(user: string): string { "Thank you for your vote @" + user }
  function IssueThanks(user: string): string
  {
    "Thank You @" + user + " for your feedback, we will review and get back to you shortly"
  }
  function IssueMissing(user: string): string { "@" + user + " Must include a description of the !issue" }
  function BetThanks(user: string, duration: int): string
  {
    "Thank you for your bet: @" + user + ": " + IntText(duration) + "s"
  }
  const NoBets := "NO BETS WHILE BEGINBOT IS SOLVING"
  function SelfLove(user: string): string
  {
    "You can love yourself in real life, but not in Beginworld @" + user
  }
  function RideOrDieMsg(user: string, friend: string): string
  {
    "@" + user + " Made @" + friend + " their Ride or Die"
  }
  const Rebuild := "Society now must rebuild"
  function IssueDeleted(id: int): string { "Issue: " + IntText(id) + " Deleted " }
  function RequestDenied(user: string, id: int): string { "@" + user + " DENIED Request: " + IntText(id) }
  function NotFound(words: seq<string>): string
  {
    "Could not find user or command: " + Join(words, " ")
  }
  const NoRequests := "Excellent Job Stream Lords No Requests!"
  function MarketMsg(total: int): string
  {
    "Total Cool Points in Market: " + IntText(total)
  }
  function CoupUndecided(threshold: int): string
  {
    "The Will of the People have not chosen: " + IntText(threshold) + " votes must be cast for either Peace or Revolution"
  }

  /** The tides that set off a coup. */
  predicate Decisive(tide: string)
  {
    tide == "peace" || tide == "revolution"
  }

  /** The reply of `me`: the stats, then the caller's commands if any. */
  function MeText(stats: string, owned: seq<string>): string
  {
    var perms := Join(Bang(owned), " ");
    if perms != "" then stats + " | " + perms else stats
  }

  /** A joined list starts with its first part. */
  lemma JoinStartsWithFirst(parts: seq<string>, sep: string)
    requires |parts| > 0
    ensures parts[0] <= Join(parts, sep)
  {
  }

  /** `me` adds the command list exactly when the caller has a command. */
  lemma MeListsCommands(stats: string, owned: seq<string>)
    ensures |owned| == 0 ==> MeText(stats, owned) == stats
    ensures |owned| > 0 ==> MeText(stats, owned) == stats + " | " + Join(Bang(owned), " ")
  {
    if |owned| > 0 {
      JoinStartsWithFirst(Bang(owned), " ");
      assert Bang(owned)[0] == "!" + owned[0];
    }
  }

  function ShareError(command: Option<string>, friend: Option<string>): string
  {
    "Error Sharing - Command: " + Show(command) + " | User: " + Show(friend)
  }

  const VoteCommands := ["peace", "revolution", "vote"]
  const IssueCommands := ["issue", "bug"]
  const BetListCommands := ["all_bets", "all_bet", "bets"]
  const DetractCommands := ["dislike", "hate", "detract"]
  const SupportCommands := ["support", "love", "like"]
  const PermsCommands := ["permissions", "permission", "perms", "perm"]
  const PropsCommands := ["props", "bigups", "endorse"]
  const ShareCommands := ["share", "clone", "add_perm", "add_perms", "share_perm", "share_perms"]
  const GiveCommands := ["transfer", "give"]

  /** `_process_command`: the first branch whose test holds decides. A
      tier-gated branch whose inner test fails (no document id, no target)
      falls through to the branches after it, as in the source. The first
      stage holds the branches of lines 114-194. */
  function Process(user: string, command: string, args: seq<string>,
      cfg: Config, p: Parsed, stopwatchRunning: bool): Decision
  {
    var god := user in cfg.streamGods;
    if command == "no_news" && user in Chosen then Delegate(PurgeNews)
    else if user == Beginbotbot && command == "whateveriwant" then RaiseCost("damn", 300)
    else if command in VoteCommands then
      if command == "vote" then
        (if |args| == 0 then Answer(Raises("IndexError", "")) else CastVote(args[0]))
      else CastVote(command)
    else if command in IssueCommands then
      if |args| > 0 then FileIssue(args) else Answer(Reply(IssueMissing(user)))
    else if command == "delete_issue" && god && DocPresent(p.docId) then
      DeleteIssue(p.docId.value)
    else if command == "issues" then Delegate(AllIssues)
    else if command == "requests" then ShowRequests
    else if command == "most_popular" then Delegate(MostPopular)
    else if command == "economy" then MarketTotal
    else if command in BetListCommands then Delegate(AllBets)
    else if command == "bet" then
      if !stopwatchRunning then PlaceBet(p.amount) else Answer(Reply(NoBets))
    else if command == "new_cube" && user == Beginbotbot then Delegate(PurgeCube)
    else if command == "cubed" && user in Chosen then Cube(args)
    else if command == "coup" then Coup
    else ProcessTargets(user, command, args, cfg, p, stopwatchRunning)
  }

  /** The branches that take a user or a command (lines 200-289). */
  function ProcessTargets(user: string, command: string, args: seq<string>,
      cfg: Config, p: Parsed, stopwatchRunning: bool): Decision
  {
    var lord := user in cfg.streamLords;
    if command == "me" then ShowMe
    else if command == "donate" then Delegate(Donate)
    else if command == "deny" && lord && DocPresent(p.docId) then
      DenyRequest(p.docId.value)
    else if command == "approve" && lord then
      if Present(p.approver.targetUser) then Delegate(ApproveUser)
      else if Present(p.approver.targetCommand) then Delegate(ApproveCommand)
      else if DocPresent(p.docId) then Delegate(ApproveDocId)
      else Answer(Reply("Not Sure What to Approve"))
    else if command == "help" then AskHelp(args)
    else if command in DetractCommands && Present(p.perms.targetCommand) && !Present(p.perms.targetUser) then
      Delegate(Detract)
    else if command in SupportCommands then
      if Present(p.perms.targetCommand) && !Present(p.perms.targetUser) then Delegate(Support)
      else if Present(p.perms.targetUser) && !Present(p.perms.targetCommand) then
        if user == p.perms.targetUser.value then Answer(Reply(SelfLove(user)))
        else PickRideOrDie(p.perms.targetUser.value)
      else Answer(NoReply)
    else ProcessAdmin(user, command, args, cfg, p, stopwatchRunning)
  }

  /** The branches for sound-effect requests, resets, moderation and
      permissions (lines 295-362). */
  function ProcessAdmin(user: string, command: string, args: seq<string>,
      cfg: Config, p: Parsed, stopwatchRunning: bool): Decision
  {
    var god := user in cfg.streamGods;
    if command == "soundeffect" then Delegate(SaveRequest)
    else if command == "do_over" && user == Beginbotbot then DoOver
    else if command == "revive" && god && (Present(p.perms.targetCommand) || Present(p.perms.targetUser)) then
      if Present(p.perms.targetCommand) then Delegate(ReviveCommand) else Delegate(ReviveUser)
    else if command == "silence" && god && (Present(p.perms.targetCommand) || Present(p.perms.targetUser)) then
      if Present(p.perms.targetCommand) then Delegate(SilenceCommand) else Delegate(KillUser)
    else if command in PermsCommands then
      if |args| > 0 && !Present(p.perms.targetCommand) && !Present(p.perms.targetUser) then
        UnknownTarget(args)
      else Delegate(FetchPermissions)
    else ProcessRandom(user, command, args, cfg, p, stopwatchRunning)
  }

  /** The branches that may draw a random user or command, the stream-god
      drops, and the fall-through (lines 368-498). */
  function ProcessRandom(user: string, command: string, args: seq<string>,
      cfg: Config, p: Parsed, stopwatchRunning: bool): Decision
  {
    var god := user in cfg.streamGods;
    if command in PropsCommands then Props(p.propsUser)
    else if command in ShareCommands then Share(p.sharePerms.targetCommand, p.sharePerms.targetUser)
    else if command == "buy" then Delegate(BuyCommand)
    else if command == "steal" then Steal(p.timeUser, p.timeSfx)
    else if command in GiveCommands then Give(p.timeCommand, p.timeUser)
    else if command == "dropeffect" && god then Delegate(Airdrop)
    else if command == "dropreward" && god then DropReward
    else FallThrough(user, command, cfg)
  }

  /** `build_response`: nightbot is ignored, then the basic-info router may
      answer, then `_process_command` decides. */
  function Route(user: string, command: string, args: seq<string>, cfg: Config,
                 p: Parsed, stopwatchRunning: bool, basicInfo: Option<string>): Decision
  {
    if user == PrizeDropper.Nightbot then Answer(NoReply)
    else if Present(basicInfo) then Answer(Reply(basicInfo.value))
    else Process(user, command, args, cfg, p, stopwatchRunning)
  }

  /** The ledger after `User(u).bankrupt()` for every listed user. */
  function Bankrupted(points: map<string, int>, users: seq<string>): (r: map<string, int>)
    ensures forall u :: u in r <==> u in points || u in users
    ensures forall u :: u in users ==> r[u] == 0
    ensures forall u :: u in points && u !in users ==> r[u] == points[u]
  {
    if |users| == 0 then points
    else Bankrupted(points, users[..|users| - 1])[users[|users| - 1] := 0]
  }

  /** The ledger after every owner of every listed command has been revoked. */
  function Revoked(permitted: map<string, set<string>>, commands: seq<string>): (r: map<string, set<string>>)
    ensures r.Keys == permitted.Keys
    ensures forall c :: c in permitted ==> r[c] == if c in commands then {} else permitted[c]
  {
    if |commands| == 0 then permitted
    else
      var earlier := Revoked(permitted, commands[..|commands| - 1]);
      var c := commands[|commands| - 1];
      if c in earlier then earlier[c := {}] else earlier
  }

  /** `do_over`: bankrupt every user of `User.all()`, then revoke every owner
      of every command of `Command.db().all()`, one owner at a time. */
  method RunDoOver(store: Store, users: seq<string>, commands: seq<string>)
    modifies store`coolPoints, store`permitted
    ensures store.View() == old(store.View()).(
      coolPoints := Bankrupted(old(store.coolPoints), users),
      permitted := Revoked(old(store.permitted), commands))
  {
    BankruptAll(store, users);
    RevokeAll(store, commands);
  }

  method BankruptAll(store: Store, users: seq<string>)
    modifies store`coolPoints
    ensures store.View() == old(store.View()).(coolPoints := Bankrupted(old(store.coolPoints), users))
  {
    ghost var start := store.View();
    for i := 0 to |users|
      invariant store.View() == start.(coolPoints := Bankrupted(start.coolPoints, users[..i]))
    {
      assert users[..i + 1][..i] == users[..i];
      store.Bankrupt(users[i]);
    }
    assert users[..|users|] == users;
  }

  method RevokeAll(store: Store, commands: seq<string>)
    modifies store`permitted
    ensures store.View() == old(store.View()).(permitted := Revoked(old(store.permitted), commands))
  {
    ghost var start := store.View();
    for j := 0 to |commands|
      invariant store.View() == start.(permitted := Revoked(start.permitted, commands[..j]))
    {
      assert commands[..j + 1][..j] == commands[..j];
      RevokeOwners(store, commands[j]);
    }
    assert commands[..|commands|] == commands;
  }

  /** Every owner of `c` loses it, one `unallow_user` call per owner. */
  method RevokeOwners(store: Store, c: string)
    modifies store`permitted
    ensures store.View() == old(store.View()).(
      permitted := if c in old(store.permitted) then old(store.permitted)[c := {}] else old(store.permitted))
  {
    ghost var before := store.View();
    var remaining := store.View().Users(c);
    assert c in before.permitted ==> before.permitted[c := remaining] == before.permitted;
    while remaining != {}
      invariant c !in before.permitted ==> remaining == {} && store.View() == before
      invariant c in before.permitted ==> store.View() == before.(permitted := before.permitted[c := remaining])
      decreases remaining
    {
      var u :| u in remaining;
      store.UnallowUser(c, u);
      remaining := remaining - {u};
    }
  }

  /** What the handlers see of the world: the recent-viewer pool and the
      retry budget for random picks, the sound-effect library, the chat log's
      lines, the user and command records for `do_over`, and what the
      collaborators report: `LaLibre.threshold()`, the tide
      `Vote.have_tables_turned` reports for it, `User.stats()`,
      `SoundeffectRequest.formatted_stats()` and `User.total_cool_points()`. */
  datatype World = World(pool: set<string>, budget: nat, library: set<string>,
                         chatLines: seq<string>, allUsers: seq<string>, allCommands: seq<string>,
                         threshold: int, tide: string, stats: string, requestStats: string,
                         coolPointsTotal: int)

  /** The random picks a decision made, if any. */
  datatype Draws = Draws(user: Option<string>, command: Option<string>)

  /** A target the parser left as the sentinel "random". */
  predicate IsRandom(o: Option<string>)
  {
    o == Some("random")
  }

  /** A draw by `random_not_you_user`: a pool user other than the caller,
      who is not invalid, and none only when there is no such user. */
  predicate NotYou(cfg: Config, user: string, w: World, drawn: Option<string>)
  {
    (drawn.Some? ==> drawn.value in w.pool && PrizeDropper.Eligible(drawn.value, cfg.streamGods, {user})) &&
    (drawn.Some? <==> PrizeDropper.AnyEligible(w.pool, cfg.streamGods, {user}))
  }

  /** `props`: a missing or "random" target is replaced by a random user
      other than the caller; the transfer itself is the collaborator's. */
  predicate PropsDone(cfg: Config, user: string, target: Option<string>, w: World, r: Response, draws: Draws)
  {
    r == Collaborator(TransferStreetCred) && draws.command.None? &&
    (IsRandom(target) || !Present(target) ==> NotYou(cfg, user, w, draws.user)) &&
    (!(IsRandom(target) || !Present(target)) ==> draws.user.None?)
  }

  method HandleProps(cfg: Config, user: string, target: Option<string>, w: World) returns (r: Response, draws: Draws)
    ensures PropsDone(cfg, user, target, w, r, draws)
  {
    draws := Draws(None, None);
    if IsRandom(target) || !Present(target) {
      var picked := PrizeDropper.RandomUser(w.pool, cfg.streamGods, {user}, w.budget);
      draws := draws.(user := picked);
    }
    r := Collaborator(TransferStreetCred);
  }

  /** `share`: a "random" command is one the caller owns (none: the draw
      raises); a "random" friend hits the unbound `command`; the collaborator
      is called only with both a command and a friend. */
  predicate ShareDone(user: string, command: Option<string>, friend: Option<string>, b: Books,
                      r: Response, draws: Draws)
  {
    draws.user.None? &&
    if IsRandom(command) && b.CommandsOf(user) == {} then r == Raises("ValueError", "")
    else
      var chosen := if IsRandom(command) then draws.command else command;
      (IsRandom(command) ==> draws.command.Some? && draws.command.value in b.CommandsOf(user)) &&
      r == if IsRandom(friend) then Raises("UnboundLocalError", "")
           else if Present(friend) && Present(chosen) then Collaborator(ShareCommand)
           else Reply(ShareError(chosen, friend))
  }

  method HandleShare(store: Store, user: string, command: Option<string>, friend: Option<string>)
    returns (r: Response, draws: Draws)
    ensures ShareDone(user, command, friend, store.View(), r, draws)
  {
    draws := Draws(None, None);
    var chosen := command;
    if IsRandom(command) {
      var owned := store.View().CommandsOf(user);
      if owned == {} {
        return Raises("ValueError", ""), draws;
      }
      var c :| c in owned;
      chosen := Some(c);
      draws := draws.(command := chosen);
    }
    if IsRandom(friend) {
      r := Raises("UnboundLocalError", "");
    } else if Present(friend) && Present(chosen) {
      r := Collaborator(ShareCommand);
    } else {
      r := Reply(ShareError(chosen, friend));
    }
  }

  /** `steal`: "random random" picks a victim other than the caller, then
      one of the victim's commands; any other targets go straight to the
      stealer, a missing victim included. Only a missing command, and a
      random victim that could not be drawn, stay with the opaque stealer. */
  predicate StealDone(cfg: Config, user: string, victim: Option<string>, sfx: Option<string>, w: World,
                      before: Books, after: Books, r: Response, draws: Draws)
  {
    if IsRandom(victim) && IsRandom(sfx) then
      match draws.user
      case None => r == Collaborator(StealCommand) && after == before && NotYou(cfg, user, w, draws.user)
      case Some(v) =>
        NotYou(cfg, user, w, draws.user) &&
        if before.CommandsOf(v) == {} then r == Raises("ValueError", "") && after == before
        else
          draws.command.Some? && draws.command.value in before.CommandsOf(v) &&
          r.Reply? &&
          CommandStealer.Outcome(after, r.text) == CommandStealer.Steal(before, user, Some(v), draws.command.value)
    else if sfx.None? then
      r == Collaborator(StealCommand) && after == before
    else
      r.Reply? && CommandStealer.Outcome(after, r.text) == CommandStealer.Steal(before, user, victim, sfx.value)
  }

  method HandleSteal(store: Store, cfg: Config, user: string, victim: Option<string>, sfx: Option<string>, w: World)
    returns (r: Response, draws: Draws)
    modifies store`permitted, store`costs
    ensures StealDone(cfg, user, victim, sfx, w, old(store.View()), store.View(), r, draws)
  {
    draws := Draws(None, None);
    if IsRandom(victim) && IsRandom(sfx) {
      var picked := PrizeDropper.RandomUser(w.pool, cfg.streamGods, {user}, w.budget);
      draws := draws.(user := picked);
      if picked.None? {
        r := Collaborator(StealCommand);
      } else {
        var owned := store.View().CommandsOf(picked.value);
        if owned == {} {
          r := Raises("ValueError", "");
        } else {
          var c :| c in owned;
          draws := draws.(command := Some(c));
          var msg := CommandStealer.StealIn(store, user, picked, c);
          r := Reply(msg);
        }
      }
    } else if sfx.None? {
      r := Collaborator(StealCommand);
    } else {
      var msg := CommandStealer.StealIn(store, user, victim, sfx.value);
      r := Reply(msg);
    }
  }

  /** `give`/`transfer`: a "random" command crashes in `random.choice`; a
      "random" friend is drawn excluding only the caller; no friend raises. */
  predicate GiveDone(cfg: Config, user: string, command: Option<string>, friend: Option<string>, w: World,
                     r: Response, draws: Draws)
  {
    draws.command.None? &&
    if IsRandom(command) then r == Raises("TypeError", "")
    else
      var resolved := if IsRandom(friend) then draws.user else friend;
      (IsRandom(friend) ==> NotYou(cfg, user, w, draws.user)) &&
      r == if resolved.None? then Raises("ValueError", "We didn't find a user to give to")
           else Collaborator(GiveCommand)
  }

  method HandleGive(cfg: Config, user: string, command: Option<string>, friend: Option<string>, w: World)
    returns (r: Response, draws: Draws)
    ensures GiveDone(cfg, user, command, friend, w, r, draws)
  {
    draws := Draws(None, None);
    if IsRandom(command) {
      r := Raises("TypeError", "");
    } else {
      var resolved := friend;
      if IsRandom(friend) {
        resolved := PrizeDropper.RandomUser(w.pool, cfg.streamGods, {user}, w.budget);
        draws := draws.(user := resolved);
      }
      if resolved.None? {
        r := Raises("ValueError", "We didn't find a user to give to");
      } else {
        r := Collaborator(GiveCommand);
      }
    }
  }

  /** `dropreward`: the last kept chat speaker gets a random sound effect. */
  predicate DropDone(cfg: Config, w: World, before: Books, after: Books, r: Response, draws: Draws)
  {
    match PrizeDropper.RewardedUser(w.chatLines, cfg.streamGods)
    case None => r == Raises("IndexError", "") && after == before
    case Some(winner) =>
      if w.library == {} then r == Raises("ValueError", "") && after == before
      else
        draws.command.Some? && draws.command.value in w.library &&
        r == Reply(PrizeDropper.AccessMsg(winner, draws.command.value)) &&
        after == Allow(before, draws.command.value, winner)
  }

  /** What carrying out `d` for caller `user` does: the reply, the random
      picks, and the ledger afterwards. Collaborator calls leave the modelled
      ledger as it was. */
  ghost predicate Executed(cfg: Config, user: string, d: Decision, w: World,
                     before: Books, after: Books, r: Response, draws: Draws)
  {
    match d
    case Answer(response) => r == response && after == before
    case Delegate(call) => r == Collaborator(call) && after == before
    case Coup =>
      r == (if Decisive(w.tide) then Collaborator(AttemptCoup) else Reply(CoupUndecided(w.threshold))) &&
      after == before
    case ShowMe =>
      (exists cs :: Listing(cs, before.CommandsOf(user)) && r == Reply(MeText(w.stats, cs))) && after == before
    case ShowRequests =>
      r == Reply(if w.requestStats == "" then NoRequests else w.requestStats) && after == before
    case MarketTotal => r == Reply(MarketMsg(w.coolPointsTotal)) && after == before
    case AskHelp(topic) => r == Help(cfg.helpTable, topic) && after == before
    case DeleteIssue(id) => r == Reply(IssueDeleted(id)) && after == before
    case DenyRequest(id) => r == Reply(RequestDenied(user, id)) && after == before
    case UnknownTarget(words) => r == Raises("ValueError", NotFound(words)) && after == before
    case Cube(given) =>
      if |given| == 0 then r == Raises("IndexError", "") && after == before
      else if ParseInt(given[0]).None? then r == Raises("ValueError", "") && after == before
      else r == Collaborator(Gamble) && after == before.(bets := [])
    case RaiseCost(c, amount) =>
      r == Collaborator(IncreaseCost) && after == CostIncreased(before, c, amount)
    case CastVote(choice) =>
      r == Reply(VoteThanks(user)) && after == before.(votes := before.votes[user := choice])
    case FileIssue(words) =>
      r == Reply(IssueThanks(user)) && after == before.(issues := before.issues + [Issue(user, Join(words, " "))])
    case PlaceBet(duration) =>
      r == Reply(BetThanks(user, duration)) && after == before.(bets := before.bets + [Bet(user, duration)])
    case PickRideOrDie(friend) =>
      r == Reply(RideOrDieMsg(user, friend)) && after == before.(rideOrDie := before.rideOrDie[user := friend])
    case DoOver =>
      r == Reply(Rebuild) &&
      after == before.(coolPoints := Bankrupted(before.coolPoints, w.allUsers),
                       permitted := Revoked(before.permitted, w.allCommands))
    case PlaySound(c) =>
      r == NoReply && after == before.(playRequests := before.playRequests + [PlayRequest(user, c)])
    case Props(target) => PropsDone(cfg, user, target, w, r, draws) && after == before
    case Share(command, friend) => ShareDone(user, command, friend, before, r, draws) && after == before
    case Steal(victim, sfx) => StealDone(cfg, user, victim, sfx, w, before, after, r, draws)
    case Give(command, friend) => GiveDone(cfg, user, command, friend, w, r, draws) && after == before
    case DropReward => DropDone(cfg, w, before, after, r, draws)
  }

  /** Carry out a decision for caller `user`. */
  method Execute(store: Store, cfg: Config, user: string, d: Decision, w: World)
    returns (r: Response, draws: Draws)
    modifies store
    ensures Executed(cfg, user, d, w, old(store.View()), store.View(), r, draws)
  {
    draws := Draws(None, None);
    match d
    case Answer(response) =>
      r := response;
    case Delegate(call) =>
      r := Collaborator(call);
    case Coup =>
      if Decisive(w.tide) {
        r := Collaborator(AttemptCoup);
      } else {
        r := Reply(CoupUndecided(w.threshold));
      }
    case ShowMe =>
      var owned := ListCommands(store.View(), user);
      r := Reply(MeText(w.stats, owned));
    case ShowRequests =>
      r := Reply(if w.requestStats == "" then NoRequests else w.requestStats);
    case MarketTotal =>
      r := Reply(MarketMsg(w.coolPointsTotal));
    case AskHelp(topic) =>
      r := Help(cfg.helpTable, topic);
    case DeleteIssue(id) =>
      r := Reply(IssueDeleted(id));
    case DenyRequest(id) =>
      r := Reply(RequestDenied(user, id));
    case UnknownTarget(words) =>
      r := Raises("ValueError", NotFound(words));
    case Cube(given) =>
      if |given| == 0 {
        r := Raises("IndexError", "");
      } else if ParseInt(given[0]).None? {
        r := Raises("ValueError", "");
      } else {
        store.PurgeBets();
        r := Collaborator(Gamble);
      }
    case RaiseCost(c, amount) =>
      store.IncreaseCost(c, amount);
      r := Collaborator(IncreaseCost);
    case CastVote(choice) =>
      store.CastVote(user, choice);
      r := Reply(VoteThanks(user));
    case FileIssue(words) =>
      store.SaveIssue(user, Join(words, " "));
      r := Reply(IssueThanks(user));
    case PlaceBet(duration) =>
      store.SaveBet(user, duration);
      r := Reply(BetThanks(user, duration));
    case PickRideOrDie(friend) =>
      store.SetRideOrDie(user, friend);
      r := Reply(RideOrDieMsg(user, friend));
    case DoOver =>
      RunDoOver(store, w.allUsers, w.allCommands);
      r := Reply(Rebuild);
    case PlaySound(c) =>
      store.SavePlayRequest(user, c);
      r := NoReply;
    case Props(target) =>
      r, draws := HandleProps(cfg, user, target, w);
    case Share(command, friend) =>
      r, draws := HandleShare(store, user, command, friend);
    case Steal(victim, sfx) =>
      r, draws := HandleSteal(store, cfg, user, victim, sfx, w);
    case Give(command, friend) =>
      r, draws := HandleGive(cfg, user, command, friend, w);
    case DropReward =>
      var sfx;
      r, sfx := PrizeDropper.DropReward(store, cfg.streamGods, w.chatLines, w.library);
      if PrizeDropper.RewardedUser(w.chatLines, cfg.streamGods).Some? && w.library != {} {
        draws := draws.(command := Some(sfx));
      }
  }

  // ---------------------------------------------------------------------
  // Properties of the dispatch
  // ---------------------------------------------------------------------

  const GodCommands := ["delete_issue", "revive", "silence", "dropeffect", "dropreward"]
  const LordCommands := ["deny", "approve"]
  const ChosenCommands := ["no_news", "cubed"]
  const BeginbotbotCommands := ["whateveriwant", "new_cube", "do_over"]

  /** Every command name `_process_command` tests for. */
  const NamedCommands: set<string> := {
    "no_news", "whateveriwant", "peace", "revolution", "vote", "issue", "bug", "delete_issue",
    "issues", "requests", "most_popular", "economy", "all_bets", "all_bet", "bets", "bet",
    "new_cube", "cubed", "coup", "me", "donate", "deny", "approve", "help", "dislike", "hate",
    "detract", "support", "love", "like", "soundeffect", "do_over", "revive", "silence",
    "permissions", "permission", "perms", "perm", "props", "bigups", "endorse", "share",
    "clone", "add_perm", "add_perms", "share_perm", "share_perms", "buy", "steal",
    "transfer", "give", "dropeffect", "dropreward"}

  /** What the last two branches do with a command nothing else took. */
  function FallThrough(user: string, command: string, cfg: Config): Decision
  {
    if command in cfg.obsCommands && user in cfg.streamLords then Delegate(RunObsCommand)
    else if command != "" then PlaySound(command)
    else Answer(NoReply)
  }

  /** The command names each stage of the dispatch tests for. */
  const FirstStageCommands: set<string> := {
    "no_news", "whateveriwant", "peace", "revolution", "vote", "issue", "bug", "delete_issue",
    "issues", "requests", "most_popular", "economy", "all_bets", "all_bet", "bets", "bet",
    "new_cube", "cubed", "coup"}
  const TargetCommands: set<string> := {
    "me", "donate", "deny", "approve", "help", "dislike", "hate", "detract", "support", "love", "like"}
  const AdminCommands: set<string> := {
    "soundeffect", "do_over", "revive", "silence", "permissions", "permission", "perms", "perm"}
  const RandomCommands: set<string> := {
    "props", "bigups", "endorse", "share", "clone", "add_perm", "add_perms", "share_perm",
    "share_perms", "buy", "steal", "transfer", "give", "dropeffect", "dropreward"}

  /** When each stage of the dispatch lets a command pass. */
  predicate SkipsFirstStage(user: string, command: string, cfg: Config)
  {
    || command !in FirstStageCommands
    || (command == "delete_issue" && user !in cfg.streamGods)
    || (command in ChosenCommands && user !in Chosen)
    || (command in {"whateveriwant", "new_cube"} && user != Beginbotbot)
  }

  predicate SkipsTargetStage(user: string, command: string, cfg: Config, p: Parsed)
  {
    || command !in TargetCommands
    || (command in LordCommands && user !in cfg.streamLords)
    || (command in DetractCommands && !(Present(p.perms.targetCommand) && !Present(p.perms.targetUser)))
  }

  predicate SkipsAdminStage(user: string, command: string, cfg: Config)
  {
    || command !in AdminCommands
    || (command in {"revive", "silence"} && user !in cfg.streamGods)
    || (command == "do_over" && user != Beginbotbot)
  }

  predicate SkipsRandomStage(user: string, command: string, cfg: Config)
  {
    || command !in RandomCommands
    || (command in {"dropeffect", "dropreward"} && user !in cfg.streamGods)
  }

  lemma PassesFirstStage(user: string, command: string, args: seq<string>, cfg: Config,
                         p: Parsed, stopwatchRunning: bool)
    requires SkipsFirstStage(user, command, cfg)
    ensures Process(user, command, args, cfg, p, stopwatchRunning) ==
      ProcessTargets(user, command, args, cfg, p, stopwatchRunning)
  {
    if command in FirstStageCommands {
      if command == "delete_issue" {
      } else if command in ChosenCommands {
      }
    }
  }

  lemma PassesTargetStage(user: string, command: string, args: seq<string>, cfg: Config,
                          p: Parsed, stopwatchRunning: bool)
    requires SkipsTargetStage(user, command, cfg, p)
    ensures ProcessTargets(user, command, args, cfg, p, stopwatchRunning) ==
      ProcessAdmin(user, command, args, cfg, p, stopwatchRunning)
  {
  }

  lemma PassesAdminStage(user: string, command: string, args: seq<string>, cfg: Config,
                         p: Parsed, stopwatchRunning: bool)
    requires SkipsAdminStage(user, command, cfg)
    ensures ProcessAdmin(user, command, args, cfg, p, stopwatchRunning) ==
      ProcessRandom(user, command, args, cfg, p, stopwatchRunning)
  {
  }

  lemma PassesRandomStage(user: string, command: string, args: seq<string>, cfg: Config,
                          p: Parsed, stopwatchRunning: bool)
    requires SkipsRandomStage(user, command, cfg)
    ensures ProcessRandom(user, command, args, cfg, p, stopwatchRunning) == FallThrough(user, command, cfg)
  {
  }

  /** A command every stage lets pass ends in the fall-through. */
  lemma PassesEveryStage(user: string, command: string, args: seq<string>, cfg: Config,
                         p: Parsed, stopwatchRunning: bool)
    requires SkipsFirstStage(user, command, cfg) && SkipsTargetStage(user, command, cfg, p)
    requires SkipsAdminStage(user, command, cfg) && SkipsRandomStage(user, command, cfg)
    ensures Process(user, command, args, cfg, p, stopwatchRunning) == FallThrough(user, command, cfg)
  {
    PassesFirstStage(user, command, args, cfg, p, stopwatchRunning);
    PassesTargetStage(user, command, args, cfg, p, stopwatchRunning);
    PassesAdminStage(user, command, args, cfg, p, stopwatchRunning);
    PassesRandomStage(user, command, args, cfg, p, stopwatchRunning);
  }

  /** Messages from nightbot get no reply and decide nothing else. */
  lemma NightbotIgnored(command: string, args: seq<string>, cfg: Config, p: Parsed,
                        stopwatchRunning: bool, basicInfo: Option<string>)
    ensures Route(PrizeDropper.Nightbot, command, args, cfg, p, stopwatchRunning, basicInfo) == Answer(NoReply)
  {
  }

  /** A command no branch names is an OBS command for a stream lord, a
      play-soundeffect request when it is not empty, and nothing otherwise. */
  lemma UnnamedCommandFallsThrough(user: string, command: string, args: seq<string>, cfg: Config,
                                   p: Parsed, stopwatchRunning: bool)
    requires command !in NamedCommands
    ensures Process(user, command, args, cfg, p, stopwatchRunning) == FallThrough(user, command, cfg)
  {
    PassesEveryStage(user, command, args, cfg, p, stopwatchRunning);
  }

  /** A tier-gated command from outside its tier reaches no gated branch: it
      ends in the fall-through, as an unnamed command would. */
  lemma GatedCommandOutsideTier(user: string, command: string, args: seq<string>, cfg: Config,
                                p: Parsed, stopwatchRunning: bool)
    requires OutsideTier(user, command, cfg)
    ensures Process(user, command, args, cfg, p, stopwatchRunning) == FallThrough(user, command, cfg)
    ensures !(command in cfg.obsCommands && user in cfg.streamLords) ==>
      Process(user, command, args, cfg, p, stopwatchRunning) == PlaySound(command)
  {
    OutsideTierSkipsEarly(user, command, cfg, p);
    OutsideTierSkipsLate(user, command, cfg);
    PassesEveryStage(user, command, args, cfg, p, stopwatchRunning);
  }

  /** A tier-gated command from a caller outside its tier. */
  predicate OutsideTier(user: string, command: string, cfg: Config)
  {
    || (command in GodCommands && user !in cfg.streamGods)
    || (command in LordCommands && user !in cfg.streamLords)
    || (command in ChosenCommands && user !in Chosen)
    || (command in BeginbotbotCommands && user != Beginbotbot)
  }

  lemma OutsideTierSkipsEarly(user: string, command: string, cfg: Config, p: Parsed)
    requires OutsideTier(user, command, cfg)
    ensures SkipsFirstStage(user, command, cfg) && SkipsTargetStage(user, command, cfg, p)
  {
  }

  lemma OutsideTierSkipsLate(user: string, command: string, cfg: Config)
    requires OutsideTier(user, command, cfg)
    ensures SkipsAdminStage(user, command, cfg) && SkipsRandomStage(user, command, cfg)
  {
  }

  /** An OBS command runs only for a stream lord. */
  lemma ObsOnlyForLords(user: string, command: string, args: seq<string>, cfg: Config,
                        p: Parsed, stopwatchRunning: bool)
    requires command !in NamedCommands && command in cfg.obsCommands && command != ""
    ensures Process(user, command, args, cfg, p, stopwatchRunning) ==
      if user in cfg.streamLords then Delegate(RunObsCommand) else PlaySound(command)
  {
    UnnamedCommandFallsThrough(user, command, args, cfg, p, stopwatchRunning);
  }

  /** `peace` and `revolution` vote for themselves, `vote` for its first
      argument; the reply is always the thank-you and only the caller's vote
      changes. */
  lemma VoteAlwaysThanks(user: string, command: string, args: seq<string>, cfg: Config,
                         p: Parsed, stopwatchRunning: bool, w: World,
                         before: Books, after: Books, r: Response, draws: Draws)
    requires command in VoteCommands && (command == "vote" ==> |args| > 0)
    requires Executed(cfg, user, Process(user, command, args, cfg, p, stopwatchRunning), w, before, after, r, draws)
    ensures r == Reply(VoteThanks(user))
    ensures after == before.(votes := before.votes[user := if command == "vote" then args[0] else command])
  {
    var choice := if command == "vote" then args[0] else command;
    VoteRouted(user, command, args, cfg, p, stopwatchRunning);
    assert Executed(cfg, user, CastVote(choice), w, before, after, r, draws);
  }

  lemma VoteRouted(user: string, command: string, args: seq<string>, cfg: Config,
                   p: Parsed, stopwatchRunning: bool)
    requires command in VoteCommands && (command == "vote" ==> |args| > 0)
    ensures Process(user, command, args, cfg, p, stopwatchRunning) ==
      CastVote(if command == "vote" then args[0] else command)
  {
  }

  /** A `vote` with no argument raises IndexError before anything is saved. */
  lemma VoteWithoutChoiceRaises(user: string, command: string, args: seq<string>, cfg: Config,
                                p: Parsed, stopwatchRunning: bool)
    requires command == "vote" && |args| == 0
    ensures Process(user, command, args, cfg, p, stopwatchRunning) == Answer(Raises("IndexError", ""))
  {
  }

  /** `issue`/`bug` without words asks for a description and saves nothing. */
  lemma IssueNeedsDescription(user: string, command: string, args: seq<string>, cfg: Config,
                              p: Parsed, stopwatchRunning: bool, w: World,
                              before: Books, after: Books, r: Response, draws: Draws)
    requires command in IssueCommands && |args| == 0
    requires Executed(cfg, user, Process(user, command, args, cfg, p, stopwatchRunning), w, before, after, r, draws)
    ensures r == Reply(IssueMissing(user)) && after == before
  {
    IssueRouted(user, command, args, cfg, p, stopwatchRunning);
    assert Executed(cfg, user, Answer(Reply(IssueMissing(user))), w, before, after, r, draws);
  }

  /** `issue`/`bug` with words saves them, joined by spaces, as the caller's issue. */
  lemma IssueSaved(user: string, command: string, args: seq<string>, cfg: Config,
                   p: Parsed, stopwatchRunning: bool, w: World,
                   before: Books, after: Books, r: Response, draws: Draws)
    requires command in IssueCommands && |args| > 0
    requires Executed(cfg, user, Process(user, command, args, cfg, p, stopwatchRunning), w, before, after, r, draws)
    ensures r == Reply(IssueThanks(user))
    ensures after == before.(issues := before.issues + [Issue(user, Join(args, " "))])
  {
    IssueRouted(user, command, args, cfg, p, stopwatchRunning);
    assert Executed(cfg, user, FileIssue(args), w, before, after, r, draws);
  }

  lemma IssueRouted(user: string, command: string, args: seq<string>, cfg: Config,
                    p: Parsed, stopwatchRunning: bool)
    requires command in IssueCommands
    ensures Process(user, command, args, cfg, p, stopwatchRunning) ==
      if |args| > 0 then FileIssue(args) else Answer(Reply(IssueMissing(user)))
  {
  }

  /** `bet` while the stopwatch runs is refused and saves no bet. */
  lemma BetRefusedWhileSolving(user: string, command: string, args: seq<string>, cfg: Config, p: Parsed,
                               stopwatchRunning: bool, w: World,
                               before: Books, after: Books, r: Response, draws: Draws)
    requires command == "bet" && stopwatchRunning
    requires Executed(cfg, user, Process(user, command, args, cfg, p, stopwatchRunning), w, before, after, r, draws)
    ensures r == Reply(NoBets) && after == before
  {
    BetRouted(user, command, args, cfg, p, stopwatchRunning);
    assert Executed(cfg, user, Answer(Reply(NoBets)), w, before, after, r, draws);
  }

  lemma BetRouted(user: string, command: string, args: seq<string>, cfg: Config, p: Parsed,
                  stopwatchRunning: bool)
    requires command == "bet"
    ensures Process(user, command, args, cfg, p, stopwatchRunning) ==
      if !stopwatchRunning then PlaceBet(p.amount) else Answer(Reply(NoBets))
  {
  }

  /** Otherwise the caller's bet is saved with the parsed amount. */
  lemma BetSaved(user: string, command: string, args: seq<string>, cfg: Config, p: Parsed,
                 stopwatchRunning: bool, w: World,
                 before: Books, after: Books, r: Response, draws: Draws)
    requires command == "bet" && !stopwatchRunning
    requires Executed(cfg, user, Process(user, command, args, cfg, p, stopwatchRunning), w, before, after, r, draws)
    ensures r == Reply(BetThanks(user, p.amount))
    ensures after == before.(bets := before.bets + [Bet(user, p.amount)])
  {
    BetRouted(user, command, args, cfg, p, stopwatchRunning);
    assert Executed(cfg, user, PlaceBet(p.amount), w, before, after, r, draws);
  }

  lemma LoveRouted(user: string, command: string, args: seq<string>, cfg: Config,
                   p: Parsed, stopwatchRunning: bool)
    requires command in SupportCommands
    requires Present(p.perms.targetUser) && !Present(p.perms.targetCommand)
    ensures Process(user, command, args, cfg, p, stopwatchRunning) ==
      if user == p.perms.targetUser.value then Answer(Reply(SelfLove(user)))
      else PickRideOrDie(p.perms.targetUser.value)
  {
    assert SkipsFirstStage(user, command, cfg);
    PassesFirstStage(user, command, args, cfg, p, stopwatchRunning);
    assert command !in DetractCommands && command !in LordCommands;
  }

  /** `love` aimed at yourself is refused and sets nothing. */
  lemma LoveYourself(user: string, command: string, args: seq<string>, cfg: Config,
                     p: Parsed, stopwatchRunning: bool, w: World,
                     before: Books, after: Books, r: Response, draws: Draws)
    requires command in SupportCommands && p.perms.targetUser == Some(user) && user != ""
    requires !Present(p.perms.targetCommand)
    requires Executed(cfg, user, Process(user, command, args, cfg, p, stopwatchRunning), w, before, after, r, draws)
    ensures r == Reply(SelfLove(user)) && after == before
  {
    LoveRouted(user, command, args, cfg, p, stopwatchRunning);
    assert Executed(cfg, user, Answer(Reply(SelfLove(user))), w, before, after, r, draws);
  }

  /** `love` aimed at another user makes them the caller's ride or die. */
  lemma LoveMakesRideOrDie(user: string, command: string, args: seq<string>, cfg: Config,
                           p: Parsed, stopwatchRunning: bool, w: World,
                           before: Books, after: Books, r: Response, draws: Draws)
    requires command in SupportCommands && Present(p.perms.targetUser) && p.perms.targetUser.value != user
    requires !Present(p.perms.targetCommand)
    requires Executed(cfg, user, Process(user, command, args, cfg, p, stopwatchRunning), w, before, after, r, draws)
    ensures r == Reply(RideOrDieMsg(user, p.perms.targetUser.value))
    ensures after == before.(rideOrDie := before.rideOrDie[user := p.perms.targetUser.value])
  {
    LoveRouted(user, command, args, cfg, p, stopwatchRunning);
    assert Executed(cfg, user, PickRideOrDie(p.perms.targetUser.value), w, before, after, r, draws);
  }

  /** `hate` without a lone command target falls all the way through to a
      play-soundeffect request for "hate" itself. */
  lemma DetractWithoutCommandFallsThrough(user: string, command: string, args: seq<string>, cfg: Config,
                                          p: Parsed, stopwatchRunning: bool)
    requires command in DetractCommands
    requires !(Present(p.perms.targetCommand) && !Present(p.perms.targetUser))
    ensures Process(user, command, args, cfg, p, stopwatchRunning) == FallThrough(user, command, cfg)
  {
    assert SkipsFirstStage(user, command, cfg) && SkipsTargetStage(user, command, cfg, p);
    assert SkipsAdminStage(user, command, cfg) && SkipsRandomStage(user, command, cfg);
    PassesEveryStage(user, command, args, cfg, p, stopwatchRunning);
  }

  /** `perms` with arguments that name neither a user nor a command raises
      ValueError; otherwise the permissions fetcher answers. */
  lemma PermsNeedsATarget(user: string, command: string, args: seq<string>, cfg: Config,
                          p: Parsed, stopwatchRunning: bool)
    requires command in PermsCommands
    ensures |args| > 0 && !Present(p.perms.targetCommand) && !Present(p.perms.targetUser) ==>
      Process(user, command, args, cfg, p, stopwatchRunning) == UnknownTarget(args)
    ensures !(|args| > 0 && !Present(p.perms.targetCommand) && !Present(p.perms.targetUser)) ==>
      Process(user, command, args, cfg, p, stopwatchRunning) == Delegate(FetchPermissions)
  {
    assert SkipsFirstStage(user, command, cfg) && SkipsTargetStage(user, command, cfg, p);
    PassesFirstStage(user, command, args, cfg, p, stopwatchRunning);
    PassesTargetStage(user, command, args, cfg, p, stopwatchRunning);
  }

  lemma DoOverRouted(command: string, args: seq<string>, cfg: Config, p: Parsed, stopwatchRunning: bool)
    requires command == "do_over"
    ensures Process(Beginbotbot, command, args, cfg, p, stopwatchRunning) == DoOver
  {
    assert SkipsFirstStage(Beginbotbot, command, cfg) && SkipsTargetStage(Beginbotbot, command, cfg, p);
    PassesFirstStage(Beginbotbot, command, args, cfg, p, stopwatchRunning);
    PassesTargetStage(Beginbotbot, command, args, cfg, p, stopwatchRunning);
  }

  /** `do_over` leaves every listed user at zero cool points and every listed
      command without owners; everything else is as it was. */
  lemma DoOverEmptiesEverything(user: string, command: string, args: seq<string>, cfg: Config, p: Parsed,
                                stopwatchRunning: bool, w: World,
                                before: Books, after: Books, r: Response, draws: Draws)
    requires command == "do_over" && user == Beginbotbot
    requires Executed(cfg, user, Process(user, command, args, cfg, p, stopwatchRunning), w, before, after, r, draws)
    ensures r == Reply(Rebuild)
    ensures forall u :: u in w.allUsers ==> after.CoolPoints(u) == 0
    ensures forall u :: u !in w.allUsers ==> after.CoolPoints(u) == before.CoolPoints(u)
    ensures forall c :: c in w.allCommands ==> after.Users(c) == {}
    ensures forall c :: c !in w.allCommands ==> after.Users(c) == before.Users(c)
    ensures after == before.(coolPoints := after.coolPoints, permitted := after.permitted)
  {
    DoOverRouted(command, args, cfg, p, stopwatchRunning);
    assert Executed(cfg, user, DoOver, w, before, after, r, draws);
  }

  /** A dict literal with distinct keys answers every one of its keys. */
  lemma {:induction false} LookupFindsEntry(table: seq<(string, string)>, i: nat)
    requires i < |table|
    requires forall j, k :: 0 <= j < k < |table| ==> table[j].0 != table[k].0
    ensures Lookup(table, table[i].0) == Some(table[i].1)
  {
    if i > 0 {
      LookupFindsEntry(table[1..], i - 1);
    }
  }

  /** Keys of a help table: pairwise distinct, none written with a `!`. */
  predicate WellKeyed(table: seq<(string, string)>)
  {
    && (forall j, k :: 0 <= j < k < |table| ==> table[j].0 != table[k].0)
    && (forall j :: 0 <= j < |table| ==> |table[j].0| > 0 && table[j].0[0] != '!')
  }

  /** On a well-keyed table, `help !name` and `help name` give name's entry,
      a name that is not a key raises KeyError, and `help` alone lists every
      key with a `!`. */
  lemma HelpOnTable(table: seq<(string, string)>, args: seq<string>, i: nat)
    requires WellKeyed(table) && i < |table|
    ensures Help(table, ["!" + table[i].0]) == Reply(table[i].1)
    ensures Help(table, [table[i].0]) == Reply(table[i].1)
    ensures |args| > 0 && (forall j :: 0 <= j < |table| ==> table[j].0 != StripBang(args[0])) ==>
      Help(table, args) == Raises("KeyError", "")
    ensures Help(table, []) == Reply(HelpListing(table))
  {
    var key := table[i].0;
    assert StripBang("!" + key) == key;
    assert key[0] != '!';
    LookupFindsEntry(table, i);
  }

  /** The length and first two letters of a name: enough to tell the help
      topics apart. */
  function Signature(s: string): (int, char, char)
  {
    if |s| < 2 then (|s|, ' ', ' ') else (|s|, s[0], s[1])
  }

  const HelpSignatures := [(2, 'm', 'e'), (3, 'b', 'u'), (4, 'l', 'o'), (4, 'h', 'a'), (5, 's', 't'),
    (5, 's', 'h'), (8, 't', 'r'), (5, 'p', 'r'), (5, 'p', 'e'), (6, 'd', 'o'), (5, 'i', 's'),
    (12, 'm', 'o'), (4, 'c', 'o'), (11, 's', 'o'), (4, 'v', 'o')]

  /** The help topics are pairwise distinct, because their signatures are,
      and none is written with a `!`. */
  lemma HelpTopicsDistinct()
    ensures forall j, k :: 0 <= j < k < |HelpTopics| ==> HelpTopics[j] != HelpTopics[k]
    ensures forall j :: 0 <= j < |HelpTopics| ==> |HelpTopics[j]| > 0 && HelpTopics[j][0] != '!'
  {
    HelpTopicsSigned();
    HelpSignaturesDistinct();
  }

  lemma HelpTopicsSigned()
    ensures forall j :: 0 <= j < |HelpTopics| ==> Signature(HelpTopics[j]) == HelpSignatures[j]
  {
  }

  lemma HelpSignaturesDistinct()
    ensures forall j, k :: 0 <= j < k < |HelpSignatures| ==> HelpSignatures[j] != HelpSignatures[k]
  {
  }

  /** A table built from distinct keys without a `!` is well keyed. */
  lemma WellKeyedPairs(keys: seq<string>, values: seq<string>)
    requires |keys| == |values|
    requires forall j, k :: 0 <= j < k < |keys| ==> keys[j] != keys[k]
    requires forall j :: 0 <= j < |keys| ==> |keys[j]| > 0 && keys[j][0] != '!'
    ensures WellKeyed(Pairs(keys, values))
  {
    var table := Pairs(keys, values);
    assert forall j :: 0 <= j < |table| ==> table[j].0 == keys[j];
  }

  lemma HelpCommandsWellKeyed()
    ensures WellKeyed(HelpCommands)
  {
    HelpTopicsDistinct();
    WellKeyedPairs(HelpTopics, HelpTexts);
  }

  /** The router's `help` answers from its help table. */
  lemma HelpRouted(user: string, command: string, args: seq<string>, cfg: Config, p: Parsed,
                    stopwatchRunning: bool)
    requires command == "help"
    ensures Process(user, command, args, cfg, p, stopwatchRunning) == AskHelp(args)
  {
    assert SkipsFirstStage(user, command, cfg);
    PassesFirstStage(user, command, args, cfg, p, stopwatchRunning);
  }
  lemma CoupRouted(user: string, command: string, args: seq<string>, cfg: Config, p: Parsed,
                   stopwatchRunning: bool)
    requires command == "coup"
    ensures Process(user, command, args, cfg, p, stopwatchRunning) == Coup
  {
  }

  /** `coup` attempts the coup only when the tide at the threshold is peace
      or revolution; otherwise the reply names the threshold. Anyone may ask. */
  lemma CoupWaitsForTheTide(user: string, command: string, args: seq<string>, cfg: Config, p: Parsed,
                            stopwatchRunning: bool, w: World,
                            before: Books, after: Books, r: Response, draws: Draws)
    requires command == "coup"
    requires Executed(cfg, user, Process(user, command, args, cfg, p, stopwatchRunning), w, before, after, r, draws)
    ensures after == before
    ensures Decisive(w.tide) ==> r == Collaborator(AttemptCoup)
    ensures !Decisive(w.tide) ==> r == Reply(CoupUndecided(w.threshold))
  {
    CoupRouted(user, command, args, cfg, p, stopwatchRunning);
    assert Executed(cfg, user, Coup, w, before, after, r, draws);
  }

  lemma MeRouted(user: string, command: string, args: seq<string>, cfg: Config, p: Parsed,
                 stopwatchRunning: bool)
    requires command == "me"
    ensures Process(user, command, args, cfg, p, stopwatchRunning) == ShowMe
  {
    assert SkipsFirstStage(user, command, cfg);
    PassesFirstStage(user, command, args, cfg, p, stopwatchRunning);
  }

  /** `me` shows the stats, then every command of the caller once, when the
      caller has one; nothing changes. */
  lemma MeShowsCommands(user: string, command: string, args: seq<string>, cfg: Config, p: Parsed,
                        stopwatchRunning: bool, w: World,
                        before: Books, after: Books, r: Response, draws: Draws)
    requires command == "me"
    requires Executed(cfg, user, Process(user, command, args, cfg, p, stopwatchRunning), w, before, after, r, draws)
    ensures after == before
    ensures before.CommandsOf(user) == {} ==> r == Reply(w.stats)
    ensures before.CommandsOf(user) != {} ==>
      exists cs :: Listing(cs, before.CommandsOf(user)) && r == Reply(w.stats + " | " + Join(Bang(cs), " "))
  {
    MeRouted(user, command, args, cfg, p, stopwatchRunning);
    assert Executed(cfg, user, ShowMe, w, before, after, r, draws);
    var cs :| Listing(cs, before.CommandsOf(user)) && r == Reply(MeText(w.stats, cs));
    MeListsCommands(w.stats, cs);
    if before.CommandsOf(user) != {} {
      var c :| c in before.CommandsOf(user);
      assert c in cs;
    }
  }

  /** `requests` passes the request statistics on, and says there are no
      requests when the statistics are empty. */
  lemma RequestsFallBack(user: string, command: string, args: seq<string>, cfg: Config, p: Parsed,
                         stopwatchRunning: bool, w: World,
                         before: Books, after: Books, r: Response, draws: Draws)
    requires command == "requests"
    requires Executed(cfg, user, Process(user, command, args, cfg, p, stopwatchRunning), w, before, after, r, draws)
    ensures after == before
    ensures w.requestStats == "" ==> r == Reply(NoRequests)
    ensures w.requestStats != "" ==> r == Reply(w.requestStats)
  {
    assert Process(user, command, args, cfg, p, stopwatchRunning) == ShowRequests;
  }

  /** `economy` reports the market's total cool points. */
  lemma EconomyReportsTotal(user: string, command: string, args: seq<string>, cfg: Config, p: Parsed,
                            stopwatchRunning: bool, w: World,
                            before: Books, after: Books, r: Response, draws: Draws)
    requires command == "economy"
    requires Executed(cfg, user, Process(user, command, args, cfg, p, stopwatchRunning), w, before, after, r, draws)
    ensures r == Reply(MarketMsg(w.coolPointsTotal)) && after == before
  {
    assert Process(user, command, args, cfg, p, stopwatchRunning) == MarketTotal;
  }

  lemma StealRouted(user: string, command: string, args: seq<string>, cfg: Config, p: Parsed,
                    stopwatchRunning: bool)
    requires command == "steal"
    ensures Process(user, command, args, cfg, p, stopwatchRunning) == Steal(p.timeUser, p.timeSfx)
  {
    assert SkipsFirstStage(user, command, cfg) && SkipsTargetStage(user, command, cfg, p);
    PassesFirstStage(user, command, args, cfg, p, stopwatchRunning);
    PassesTargetStage(user, command, args, cfg, p, stopwatchRunning);
    PassesAdminStage(user, command, args, cfg, p, stopwatchRunning);
  }

  /** `steal` with a named command and anything but "random random" runs the
      stealer on the parsed victim, even when no victim was parsed. */
  lemma StealNamedCommand(user: string, command: string, args: seq<string>, cfg: Config, p: Parsed,
                          stopwatchRunning: bool, w: World,
                          before: Books, after: Books, r: Response, draws: Draws)
    requires command == "steal" && p.timeSfx.Some?
    requires !(IsRandom(p.timeUser) && IsRandom(p.timeSfx))
    requires Executed(cfg, user, Process(user, command, args, cfg, p, stopwatchRunning), w, before, after, r, draws)
    ensures r.Reply?
    ensures CommandStealer.Outcome(after, r.text) == CommandStealer.Steal(before, user, p.timeUser, p.timeSfx.value)
  {
    StealRouted(user, command, args, cfg, p, stopwatchRunning);
    assert Executed(cfg, user, Steal(p.timeUser, p.timeSfx), w, before, after, r, draws);
  }

  /** On a well-keyed help table, `help topic` and `help !topic` answer
      with that topic's entry, and change nothing. */
  lemma HelpAnswersEntry(user: string, command: string, args: seq<string>, cfg: Config, p: Parsed,
                         stopwatchRunning: bool, w: World,
                         before: Books, after: Books, r: Response, draws: Draws, i: nat)
    requires command == "help" && WellKeyed(cfg.helpTable) && i < |cfg.helpTable|
    requires args == [cfg.helpTable[i].0] || args == ["!" + cfg.helpTable[i].0]
    requires Executed(cfg, user, Process(user, command, args, cfg, p, stopwatchRunning), w, before, after, r, draws)
    ensures r == Reply(cfg.helpTable[i].1) && after == before
  {
    HelpRouted(user, command, args, cfg, p, stopwatchRunning);
    assert Executed(cfg, user, AskHelp(args), w, before, after, r, draws);
    HelpOnTable(cfg.helpTable, args, i);
  }

  /** With HELP_COMMANDS as the table, `help topic` and `help !topic` answer
      with that topic's text for every topic, and change nothing. */
  lemma HelpAnswersEveryTopic(user: string, command: string, args: seq<string>, cfg: Config, p: Parsed,
                              stopwatchRunning: bool, w: World,
                              before: Books, after: Books, r: Response, draws: Draws, i: nat)
    requires command == "help" && cfg.helpTable == HelpCommands && i < |HelpCommands|
    requires args == [HelpCommands[i].0] || args == ["!" + HelpCommands[i].0]
    requires Executed(cfg, user, Process(user, command, args, cfg, p, stopwatchRunning), w, before, after, r, draws)
    ensures r == Reply(HelpCommands[i].1) && after == before
  {
    HelpCommandsWellKeyed();
    HelpAnswersEntry(user, command, args, cfg, p, stopwatchRunning, w, before, after, r, draws, i);
  }

}
