/** chat_thief/command_parser.py: the older dispatcher `CommandParser`.
    `Respond` is its ordered `if` chain, from the caller, the command, its
    arguments, the configuration and what the argument parsers made of the
    arguments, to an `Action`; `Carry` performs an action against the
    ledger. The `donate` loop and the multi-`buy` loop are methods with
    their own specifications. */
module CommandParser {
  import opened Common
  import opened Ledger
  import PrizeDropper
  import CommandRouter
  import CommandStealer

  /** STREAM_LORDS and STREAM_GODS as the lists they are, OBS_COMMANDS, and
      this module's HELP_COMMANDS table (`ParserHelp` below is its content). */
  datatype Setup = Setup(streamLords: seq<string>, streamGods: seq<string>, obsCommands: set<string>,
                         helpTable: seq<(string, string)>)

  /** The same configuration in the shape the router's handlers take. */
  function Tiers(s: Setup): (r: CommandRouter.Config)
    ensures forall u :: u in r.streamLords <==> u in s.streamLords
    ensures forall u :: u in r.streamGods <==> u in s.streamGods
    ensures r.obsCommands == s.obsCommands && r.helpTable == s.helpTable
  {
    CommandRouter.Config((set u | u in s.streamLords), (set u | u in s.streamGods), s.obsCommands, s.helpTable)
  }

  /** What the argument parsers, which are not part of this model, made of
      the arguments. Each field is the result of one `.parse()` call. */
  datatype Parsed = Parsed(
    perms: CommandRouter.Targets,       // PermsParser(user, args)
    buyPerms: CommandRouter.Targets,    // PermsParser(user, args, random_command=True, perm_type="buy")
    givePerms: CommandRouter.Targets,   // PermsParser(user, args, random_command=True)
    propsUser: Option<string>)          // PropsParser(user, args).target_user

  /** What the collaborators report: what the router's handlers see
      (`world`, whose `stats` and `coolPointsTotal` this dispatcher reads as
      well); `User.total_users()`; the tide `Vote.have_tables_turned(threshold)`
      reports for each threshold; and the reply of the k-th
      `User.buy("random")` call of one message. */
  datatype Inputs = Inputs(world: CommandRouter.World, totalUsers: nat, tablesTurned: int -> string,
                           buyReply: nat -> string)

  // ---------------------------------------------------------------------
  // `donate` (lines 79-90)
  // ---------------------------------------------------------------------

  /** The owners of a command once the donate loop has dealt with it: a
      drawn recipient gains it and the donor loses it; with no recipient, or
      the empty name, which `if new_user:` skips, nothing changes. */
  function Moved(owners: set<string>, pick: Option<string>, donor: string): set<string>
  {
    if Present(pick) then (owners + {pick.value}) - {donor} else owners
  }

  /** The ledger after the donate loop handled `cs[i]` with draw `picks[i]`
      for every i, in order: `allow_user(new_user)`, then `unallow_user(donor)`. */
  function Donated(b: Books, donor: string, cs: seq<string>, picks: seq<Option<string>>): Books
    requires |cs| == |picks|
  {
    if |cs| == 0 then b
    else
      var earlier := Donated(b, donor, cs[..|cs| - 1], picks[..|picks| - 1]);
      var c := cs[|cs| - 1];
      var pick := picks[|picks| - 1];
      if Present(pick) then Unallow(Allow(earlier, c, pick.value), c, donor) else earlier
  }

  /** Over distinct commands, each listed command ends with the owners
      `Moved` gives it, every other command keeps its owners, and nothing but
      ownership changes. */
  lemma {:induction false} DonatedUsers(b: Books, donor: string, cs: seq<string>, picks: seq<Option<string>>)
    requires |cs| == |picks|
    requires forall i, j :: 0 <= i < j < |cs| ==> cs[i] != cs[j]
    ensures forall c :: c !in cs ==> Donated(b, donor, cs, picks).Users(c) == b.Users(c)
    ensures forall i :: 0 <= i < |cs| ==>
      Donated(b, donor, cs, picks).Users(cs[i]) == Moved(b.Users(cs[i]), picks[i], donor)
    ensures Donated(b, donor, cs, picks) == b.(permitted := Donated(b, donor, cs, picks).permitted)
  {
    if |cs| > 0 {
      var n := |cs| - 1;
      var cs', picks' := cs[..n], picks[..n];
      DonatedUsers(b, donor, cs', picks');
      var earlier := Donated(b, donor, cs', picks');
      var after := Donated(b, donor, cs, picks);
      assert forall d :: d != cs[n] ==> after.Users(d) == earlier.Users(d);
      assert cs[n] !in cs' by {
        forall i | 0 <= i < n ensures cs'[i] != cs[n] {
          assert cs'[i] == cs[i];
        }
      }
      assert after.Users(cs[n]) == Moved(b.Users(cs[n]), picks[n], donor);
      forall i | 0 <= i < n
        ensures after.Users(cs[i]) == Moved(b.Users(cs[i]), picks[i], donor)
      {
        assert cs'[i] == cs[i] && picks'[i] == picks[i];
      }
    }
  }

  /** The draws of one donate loop: the donor's commands, each once, and for
      each a recipient that came from the pool and was neither an invalid
      user nor, at the moment of the draw, an owner of that command; there is
      no recipient only when the pool held no such user. */
  predicate DrewFor(gods: set<string>, donor: string, w: CommandRouter.World, b: Books,
                    cs: seq<string>, picks: seq<Option<string>>)
  {
    && |cs| == |picks|
    && Listing(cs, b.CommandsOf(donor))
    && (forall i :: 0 <= i < |picks| && picks[i].Some? ==>
          picks[i].value in w.pool && PrizeDropper.Eligible(picks[i].value, gods, b.Users(cs[i])))
    && (forall i :: 0 <= i < |picks| && picks[i].None? ==>
          forall u :: u in w.pool ==> !PrizeDropper.Eligible(u, gods, b.Users(cs[i])))
  }

  /** Each donated command goes to someone who did not own it and is taken
      from the donor; a command drawn no recipient, or the empty name, stays
      with the donor; the donor's other commands, and everybody else's, are
      untouched. */
  lemma DonationMovesOwnership(gods: set<string>, donor: string, w: CommandRouter.World, b: Books,
                               cs: seq<string>, picks: seq<Option<string>>)
    requires DrewFor(gods, donor, w, b, cs, picks)
    ensures forall i :: 0 <= i < |cs| && Present(picks[i]) ==>
      && picks[i].value !in b.Users(cs[i])
      && picks[i].value != donor
      && Donated(b, donor, cs, picks).Users(cs[i]) == (b.Users(cs[i]) - {donor}) + {picks[i].value}
    ensures forall i :: 0 <= i < |cs| && !Present(picks[i]) ==>
      donor in Donated(b, donor, cs, picks).Users(cs[i]) &&
      Donated(b, donor, cs, picks).Users(cs[i]) == b.Users(cs[i])
    ensures forall c :: c !in b.CommandsOf(donor) ==> Donated(b, donor, cs, picks).Users(c) == b.Users(c)
    ensures Donated(b, donor, cs, picks) == b.(permitted := Donated(b, donor, cs, picks).permitted)
  {
    DonatedUsers(b, donor, cs, picks);
    forall i | 0 <= i < |cs|
      ensures donor in b.Users(cs[i])
    {
      assert cs[i] in b.CommandsOf(donor);
    }
  }

  /** The donate `results` dict: (recipient, gifted commands) entries in
      insertion order. */
  type Gifts = seq<(string, seq<string>)>

  /** The recipients that have an entry. */
  function Recipients(g: Gifts): set<string>
  {
    if |g| == 0 then {} else {g[0].0} + Recipients(g[1..])
  }

  /** No recipient has two entries. */
  predicate DistinctRecipients(g: Gifts)
  {
    |g| == 0 || (g[0].0 !in Recipients(g[1..]) && DistinctRecipients(g[1..]))
  }

  /** `results.get(u)`. */
  function Entry(g: Gifts, u: string): (r: Option<seq<string>>)
    ensures r.Some? <==> u in Recipients(g)
  {
    if |g| == 0 then None else if g[0].0 == u then Some(g[0].1) else Entry(g[1..], u)
  }

  /** `results.get(u, [])`. */
  function GiftsOf(g: Gifts, u: string): seq<string>
  {
    match Entry(g, u)
    case None => []
    case Some(cs) => cs
  }

  /** `results[u] = results.get(u, []) + [c]`: `u`'s entry grows by `c`, or
      is added at the end; no other entry changes. */
  function AddGift(g: Gifts, u: string, c: string): (r: Gifts)
    ensures Recipients(r) == Recipients(g) + {u}
    ensures forall v :: Entry(r, v) == if v == u then Some(GiftsOf(g, u) + [c]) else Entry(g, v)
    ensures DistinctRecipients(g) ==> DistinctRecipients(r)
  {
    if |g| == 0 then assert GiftsOf(g, u) + [c] == [c]; [(u, [c])]
    else if g[0].0 == u then [(u, g[0].1 + [c])] + g[1..]
    else [g[0]] + AddGift(g[1..], u, c)
  }

  /** The dict the donate loop builds from its draws. */
  function GiftsFrom(cs: seq<string>, picks: seq<Option<string>>): Gifts
    requires |cs| == |picks|
  {
    if |cs| == 0 then []
    else
      var earlier := GiftsFrom(cs[..|cs| - 1], picks[..|picks| - 1]);
      var pick := picks[|picks| - 1];
      if Present(pick) then AddGift(earlier, pick.value, cs[|cs| - 1]) else earlier
  }

  /** The commands drawn for `u`, in the order the loop met them; none for
      the empty name. */
  function GiftedTo(cs: seq<string>, picks: seq<Option<string>>, u: string): (r: seq<string>)
    requires |cs| == |picks|
    ensures |r| == 0 <==> u == "" || forall i :: 0 <= i < |picks| ==> picks[i] != Some(u)
  {
    if |cs| == 0 then []
    else
      var n := |cs| - 1;
      var earlier := GiftedTo(cs[..n], picks[..n], u);
      assert forall i :: 0 <= i < n ==> picks[..n][i] == picks[i];
      earlier + (if picks[n] == Some(u) && u != "" then [cs[n]] else [])
  }

  /** The dict has one entry per recipient, and the entry of each recipient
      lists exactly the commands drawn for them, in iteration order. */
  lemma {:induction false} GiftsByRecipient(cs: seq<string>, picks: seq<Option<string>>)
    requires |cs| == |picks|
    ensures DistinctRecipients(GiftsFrom(cs, picks))
    ensures forall u :: Entry(GiftsFrom(cs, picks), u) == Gifted(GiftedTo(cs, picks, u))
  {
    if |cs| > 0 {
      var n := |cs| - 1;
      GiftsByRecipient(cs[..n], picks[..n]);
      var earlier := GiftsFrom(cs[..n], picks[..n]);
      forall u ensures Entry(GiftsFrom(cs, picks), u) == Gifted(GiftedTo(cs, picks, u)) {
        var before := GiftedTo(cs[..n], picks[..n], u);
        assert GiftsOf(earlier, u) == before;
        if picks[n] == Some(u) && u != "" {
          assert GiftedTo(cs, picks, u) == before + [cs[n]];
        } else {
          assert GiftedTo(cs, picks, u) == before + [];
          assert before + [] == before;
        }
      }
    }
  }

  /** A list of gifts as a dict lookup sees it: no entry when it is empty. */
  function Gifted(gifts: seq<string>): Option<seq<string>>
  {
    if gifts == [] then None else Some(gifts)
  }

  /** One line of the donate reply. */
  function GiftLine(u: string, gifts: seq<string>): string
  {
    "@" + u + " was gifted " + Join(Bang(gifts), " ")
  }

  /** The donate reply: one line per dict entry, in insertion order. */
  function GiftLines(g: Gifts): (r: seq<string>)
    ensures |r| == |g|
    ensures forall j :: 0 <= j < |g| ==> r[j] == GiftLine(g[j].0, g[j].1)
  {
    if |g| == 0 then [] else [GiftLine(g[0].0, g[0].1)] + GiftLines(g[1..])
  }

  /** The donate loop: every command of the donor, in the order the records
      come back, goes to a random viewer who does not own it yet, unless the
      draw found nobody or the empty name; the reply tells each recipient what
      they were gifted. */
  method Donate(store: Store, gods: set<string>, donor: string, w: CommandRouter.World)
    returns (r: Response, cs: seq<string>, picks: seq<Option<string>>)
    modifies store`permitted
    ensures DrewFor(gods, donor, w, old(store.View()), cs, picks)
    ensures store.View() == Donated(old(store.View()), donor, cs, picks)
    ensures r == Replies(GiftLines(GiftsFrom(cs, picks)))
  {
    ghost var before := store.View();
    cs := ListCommands(store.View(), donor);
    picks := [];
    var results: Gifts := [];
    for i := 0 to |cs|
      invariant |picks| == i
      invariant store.View() == Donated(before, donor, cs[..i], picks)
      invariant results == GiftsFrom(cs[..i], picks)
      invariant forall j :: 0 <= j < i && picks[j].Some? ==>
        picks[j].value in w.pool && PrizeDropper.Eligible(picks[j].value, gods, before.Users(cs[j]))
      invariant forall j :: 0 <= j < i && picks[j].None? ==>
        forall u :: u in w.pool ==> !PrizeDropper.Eligible(u, gods, before.Users(cs[j]))
    {
      var c := cs[i];
      DonatedUsers(before, donor, cs[..i], picks);
      assert c !in cs[..i];
      var newUser := PrizeDropper.RandomUser(w.pool, gods, store.View().Users(c), w.budget);
      if Present(newUser) {
        results := AddGift(results, newUser.value, c);
        store.AllowUser(c, newUser.value);
        store.UnallowUser(c, donor);
      }
      assert cs[..i + 1][..i] == cs[..i];
      assert (picks + [newUser])[..i] == picks;
      picks := picks + [newUser];
    }
    assert cs[..|cs|] == cs;
    r := Replies(GiftLines(results));
  }

  /** What the donate reply says: one line per distinct recipient, naming
      exactly the commands gifted to them. */
  lemma DonateReplyPerRecipient(cs: seq<string>, picks: seq<Option<string>>)
    requires |cs| == |picks|
    ensures DistinctRecipients(GiftsFrom(cs, picks))
    ensures forall j :: 0 <= j < |GiftsFrom(cs, picks)| ==>
      var u := GiftsFrom(cs, picks)[j].0;
      GiftLines(GiftsFrom(cs, picks))[j] == GiftLine(u, GiftedTo(cs, picks, u)) && GiftedTo(cs, picks, u) != []
    ensures forall i :: 0 <= i < |picks| && Present(picks[i]) ==> picks[i].value in Recipients(GiftsFrom(cs, picks))
  {
    GiftsByRecipient(cs, picks);
    var g := GiftsFrom(cs, picks);
    forall j | 0 <= j < |g|
      ensures GiftLines(g)[j] == GiftLine(g[j].0, GiftedTo(cs, picks, g[j].0)) && GiftedTo(cs, picks, g[j].0) != []
    {
      EntryOfListed(g, j);
      assert Entry(g, g[j].0) == Gifted(GiftedTo(cs, picks, g[j].0));
    }
    forall i | 0 <= i < |picks| && Present(picks[i])
      ensures picks[i].value in Recipients(g)
    {
      var u := picks[i].value;
      assert GiftedTo(cs, picks, u) != [];
      assert Entry(g, u).Some?;
    }
  }

  /** In a dict without repeated recipients, the j-th entry is what
      looking up its recipient gives. */
  lemma {:induction false} EntryOfListed(g: Gifts, j: nat)
    requires DistinctRecipients(g) && j < |g|
    ensures Entry(g, g[j].0) == Some(g[j].1)
  {
    if j > 0 {
      EntryOfListed(g[1..], j - 1);
      assert g[j].0 in Recipients(g[1..]) by {
        assert Entry(g[1..], g[j].0).Some?;
      }
    }
  }

  // ---------------------------------------------------------------------
  // `buy` (lines 182-199)
  // ---------------------------------------------------------------------

  /** Python's `s[k:]`: empty once `k` is past the end. */
  function DropFirst(s: string, k: nat): (r: string)
    ensures k <= |s| ==> s == s[..k] + r
    ensures k > |s| ==> r == ""
  {
    if k <= |s| then s[k..] else ""
  }

  /** The string literal the multi-buy reply measures: it lacks the `f`
      prefix, so `{self.user}` is not replaced by the buyer's name. */
  const PurchasedLiteral := "@{self.user} purchased:"

  /** The slice as written: always the first 23 characters are cut. */
  function PurchasedAsWritten(reply: string): string
  {
    DropFirst(reply, |PurchasedLiteral|)
  }

  /** The reply of `User(user).buy(c)` that bought `purchase`, in the format
      the slice is meant to undo. */
  function BuyReply(user: string, purchase: string): string
  {
    "@" + user + " purchased:" + purchase
  }

  /** The slice as intended: the buyer's own `@user purchased:` prefix is cut. */
  function Purchased(user: string, reply: string): string
  {
    DropFirst(reply, |"@" + user + " purchased:"|)
  }

  /** The intended slice gives back exactly what follows the buyer's prefix. */
  lemma PurchasedStripsPrefix(user: string, rest: string)
    ensures Purchased(user, BuyReply(user, rest)) == rest
  {
    var prefix := "@" + user + " purchased:";
    assert BuyReply(user, rest) == prefix + rest;
    assert (prefix + rest)[|prefix|..] == rest;
  }

  /** As written, the slice gives back a purchase only to a buyer whose name
      is 11 characters long, as long as `{self.user}`. */
  lemma PurchasedAsWrittenMisses(user: string, rest: string)
    requires rest != ""
    ensures PurchasedAsWritten(BuyReply(user, rest)) == rest <==> |user| == 11
  {
    var reply := BuyReply(user, rest);
    assert |PurchasedLiteral| == 23;
    assert |reply| == |user| + 12 + |rest|;
    if |user| == 11 {
      assert reply == ("@" + user + " purchased:") + rest;
      assert reply[23..] == rest;
    }
  }

  /** For "bob" buying "clap", the reply as written lists a bare "!". */
  lemma BobBuysNothing()
    ensures "@bob" + Join(Marked([BuyReply("bob", "clap")]), " ") == "@bob!"
    ensures "@bob" + Join(MarkedAsIntended("bob", [BuyReply("bob", "clap")]), " ") == "@bob!clap"
  {
    assert |PurchasedLiteral| == 23;
    assert PurchasedAsWritten(BuyReply("bob", "clap")) == "";
    PurchasedStripsPrefix("bob", "clap");
  }

  /** The reply of the multi-buy as written: each buy reply, with its first
      23 characters cut, behind a `!`. */
  function Marked(replies: seq<string>): (r: seq<string>)
    ensures |r| == |replies|
    ensures forall i :: 0 <= i < |replies| ==> r[i] == "!" + PurchasedAsWritten(replies[i])
  {
    if |replies| == 0 then [] else ["!" + PurchasedAsWritten(replies[0])] + Marked(replies[1..])
  }

  /** The reply of the multi-buy as intended: each purchase behind a `!`. */
  function MarkedAsIntended(user: string, replies: seq<string>): (r: seq<string>)
    ensures |r| == |replies|
    ensures forall i :: 0 <= i < |replies| ==> r[i] == "!" + Purchased(user, replies[i])
  {
    if |replies| == 0 then [] else ["!" + Purchased(user, replies[0])] + MarkedAsIntended(user, replies[1..])
  }

  /** As intended, the listing names exactly the purchases, in order. */
  lemma MarkedAsIntendedLists(user: string, purchases: seq<string>)
    ensures MarkedAsIntended(user, seq(|purchases|, i requires 0 <= i < |purchases| => BuyReply(user, purchases[i])))
      == Bang(purchases)
  {
    var replies := seq(|purchases|, i requires 0 <= i < |purchases| => BuyReply(user, purchases[i]));
    forall i | 0 <= i < |purchases|
      ensures MarkedAsIntended(user, replies)[i] == Bang(purchases)[i]
    {
      PurchasedStripsPrefix(user, purchases[i]);
    }
  }

  /** `buy COMMAND N`: `User(user).buy("random")` is called N times (none
      when N is not positive); the reply lists what each call bought. */
  method BuyRandom(user: string, n: int, buy: nat -> string)
    returns (reply: string, bought: seq<string>, replies: seq<string>)
    ensures |bought| == (if n > 0 then n else 0) && |replies| == |bought|
    ensures forall i :: 0 <= i < |bought| ==> bought[i] == "random" && replies[i] == buy(i)
    ensures reply == "@" + user + Join(Marked(replies), " ")
  {
    var count := if n > 0 then n else 0;
    bought, replies := [], [];
    for i := 0 to count
      invariant |bought| == i && |replies| == i
      invariant forall k :: 0 <= k < i ==> bought[k] == "random" && replies[k] == buy(k)
    {
      var command := "random";
      bought := bought + [command];
      replies := replies + [buy(i)];
    }
    reply := "@" + user + Join(Marked(replies), " ");
  }

  // ---------------------------------------------------------------------
  // `coup`, `me`, `economy` (lines 124-180)
  // ---------------------------------------------------------------------

  /** `int(User.total_users() / 8)`: an eighth of the users, rounded down. */
  function CoupThreshold(totalUsers: nat): (t: nat)
    ensures 8 * t <= totalUsers < 8 * t + 8
  {
    totalUsers / 8
  }

  function NotChosen(threshold: int): string
  {
    "The Will of the People have not chosen: " + IntText(threshold) + " votes must be cast"
  }

  // ---------------------------------------------------------------------
  // HELP_COMMANDS (lines 42-55)
  // ---------------------------------------------------------------------

  const ParserHelpTopics := ["me", "buy", "love", "hate", "steal", "share", "transfer", "props", "perms",
                             "donate", "most_popular", "soundeffect"]
  const ParserHelpTexts := [
    "Info about yourself",
    "!buy COMMAND or !buy random - Buy a Command with Cool Points",
    "!love USER COMMAND - Show support for a command (Unmutes if theres Haters)",
    "!hate USER COMMAND - Vote to silence a command",
    "!steal COMMAND USER - steal a command from someone elses, cost Cool Points",
    "!share COMMAND USER - share access to a command",
    "!transfer COMMAND USER - transfer command to someone, costs no cool points",
    "!props @beginbot (AMOUNT_OF_STREET_CRED) - Give you street cred to beginbot",
    "!perms !clap OR !perms @beginbot - See who is allowed to use the !clap command",
    "!donate give away all your commands to random users",
    "!most_popular - Shows the most coveted commands",
    "!soundeffect YOUTUBE-ID YOUR_USERNAME 00:01 00:05 - Must be less than 5 second"
  ]
  const ParserHelp: seq<(string, string)> := Pairs(ParserHelpTopics, ParserHelpTexts)

  const ParserHelpSignatures := [(2, 'm', 'e'), (3, 'b', 'u'), (4, 'l', 'o'), (4, 'h', 'a'), (5, 's', 't'),
    (5, 's', 'h'), (8, 't', 'r'), (5, 'p', 'r'), (5, 'p', 'e'), (6, 'd', 'o'), (12, 'm', 'o'), (11, 's', 'o')]

  lemma ParserHelpTopicsSigned()
    ensures forall j :: 0 <= j < |ParserHelpTopics| ==>
      CommandRouter.Signature(ParserHelpTopics[j]) == ParserHelpSignatures[j]
  {
  }

  lemma ParserHelpSignaturesDistinct()
    ensures forall j, k :: 0 <= j < k < |ParserHelpSignatures| ==> ParserHelpSignatures[j] != ParserHelpSignatures[k]
  {
  }

  /** This dispatcher's help table has distinct keys, none written with a `!`. */
  lemma ParserHelpWellKeyed()
    ensures CommandRouter.WellKeyed(ParserHelp)
  {
    ParserHelpTopicsSigned();
    ParserHelpSignaturesDistinct();
    assert forall j, k :: 0 <= j < k < |ParserHelpTopics| ==> ParserHelpTopics[j] != ParserHelpTopics[k] by {
      forall j, k | 0 <= j < k < |ParserHelpTopics|
        ensures ParserHelpTopics[j] != ParserHelpTopics[k]
      {
        assert CommandRouter.Signature(ParserHelpTopics[j]) != CommandRouter.Signature(ParserHelpTopics[k]);
      }
    }
    CommandRouter.WellKeyedPairs(ParserHelpTopics, ParserHelpTexts);
  }

  // ---------------------------------------------------------------------
  // The dispatch (lines 67-319)
  // ---------------------------------------------------------------------

  /** A dispatcher decision. `Delegate` and `Consult` are calls into
      collaborators that are not part of this model (ones the router shares,
      and this dispatcher's own); the ledger changes they make are not
      modelled. */
  datatype Action =
    | Answer(response: Response)
    | Delegate(call: Call)
    | Consult(parserCall: ParserCall)
    | AskHelp(topic: seq<string>)
    | UnknownTarget(words: seq<string>)
    | Donation
    | Steal(victim: Option<string>, stolen: Option<string>)
    | Coup
    | Ballot(choice: string)
    | ShowMe
    | MarketTotal
    | BuyOne(command: string)
    | BuyMany(count: string)
    | DropReward
    | Props(target: Option<string>)
    | RunObs(obsCommand: string)
    | PlaySound(sound: string)

  const LeaderboardCommands := ["leaderboard", "forbes"]
  const ApproveCommands := ["approve", "approve_all_requests"]

  /** `build_response`: nothing happens unless the message is a command. */
  function Respond(user: string, command: string, args: seq<string>, s: Setup, p: Parsed,
                   isCommand: bool): Action
  {
    if isCommand then Dispatch(user, command, args, s, p) else Answer(NoReply)
  }

  /** The first branch whose test holds decides; a gated branch whose test
      fails falls through to the branches after it. This stage holds the
      branches of lines 79-139. */
  function Dispatch(user: string, command: string, args: seq<string>, s: Setup, p: Parsed): Action
  {
    var target := p.perms;
    if command == "donate" then Donation
    else if command in LeaderboardCommands then Consult(Leaderboard)
    else if command == "most_popular" then Delegate(MostPopular)
    else if command == "steal" then Steal(target.targetUser, target.targetCommand)
    else if command in CommandRouter.DetractCommands &&
            Present(target.targetCommand) && !Present(target.targetUser) then Delegate(Detract)
    else if command in CommandRouter.SupportCommands then
      if Present(target.targetCommand) && !Present(target.targetUser) then Delegate(Support)
      else Answer(NoReply)
    else if command == "coup" && user == CommandRouter.Beginbotbot then Coup
    else if command == "revolution" then Ballot("revolution")
    else if command == "peace" then Ballot("peace")
    else DispatchAccounts(user, command, args, s, p)
  }

  /** The branches of lines 141-199. */
  function DispatchAccounts(user: string, command: string, args: seq<string>, s: Setup, p: Parsed): Action
  {
    var god := user in s.streamGods;
    if command == "facts" && god then Consult(Facts)
    else if command == "paperup" && god then Consult(Paperup)
    else if command == "me" then ShowMe
    else if command in CommandRouter.PermsCommands then
      if |args| > 0 && !Present(p.perms.targetCommand) && !Present(p.perms.targetUser) then
        UnknownTarget(args)
      else Delegate(FetchPermissions)
    else if command == "peasants" then Consult(RecentPeasants)
    else if command == "loserboard" then Consult(Loserboard)
    else if command == "economy" then MarketTotal
    else if command == "buy" then
      if |args| > 1 then BuyMany(args[1])
      else BuyOne(if Present(p.buyPerms.targetCommand) then p.buyPerms.targetCommand.value else "random")
    else DispatchGifts(user, command, args, s, p)
  }

  /** The branches of lines 202-267. `drop_soundeffect` reads an undefined
      `args`, and `random` is not imported here: both raise NameError. */
  function DispatchGifts(user: string, command: string, args: seq<string>, s: Setup, p: Parsed): Action
  {
    var god := user in s.streamGods;
    if command == "dropeffect" && god then Answer(Raises("NameError", ""))
    else if command == "dropreward" && god then DropReward
    else if command in CommandRouter.GiveCommands then
      if CommandRouter.IsRandom(p.givePerms.targetCommand) then Answer(Raises("NameError", ""))
      else Consult(SwapPerm)
    else if command in CommandRouter.ShareCommands then Delegate(ShareCommand)
    else if command in CommandRouter.PropsCommands then Props(p.propsUser)
    else if command == "help" then AskHelp(args)
    else DispatchCasino(user, command, args, s, p)
  }

  /** The branches of lines 269-310. */
  function DispatchCasino(user: string, command: string, args: seq<string>, s: Setup, p: Parsed): Action
  {
    if command == "users" then Consult(PresentUsers)
    else if command in CommandRouter.BetListCommands then Consult(CasinoBets)
    else if command == "bet" then Consult(PlaceCubeBet)
    else if command == "new_cube" && user == CommandRouter.Beginbotbot then Delegate(PurgeCube)
    else if command == "cubed" && user in CommandRouter.Chosen then
      if |args| == 0 then Answer(Raises("IndexError", ""))
      else if ParseInt(args[0]).None? then Answer(Raises("ValueError", ""))
      else Consult(ClosestResult)
    else if command == "so" then Consult(Shoutout)
    else if command == "streamlords" then Answer(Reply(Join(s.streamLords, " ")))
    else if command == "streamgods" then Answer(Reply(Join(s.streamGods, " ")))
    else if command in ApproveCommands && user in s.streamLords then
      if |args| == 0 then Answer(Raises("IndexError", "")) else Consult(ApproveAll)
    else if command == "soundeffect" then Delegate(SaveRequest)
    else TrySoundeffect(user, command, s)
  }

  /** `try_soundeffect`: an OBS command of a stream lord is run, anything
      else becomes a play-soundeffect request. */
  function TrySoundeffect(user: string, command: string, s: Setup): Action
  {
    if command in s.obsCommands && user in s.streamLords then RunObs(command) else PlaySound(command)
  }

  // ---------------------------------------------------------------------
  // Carrying out an action
  // ---------------------------------------------------------------------

  /** INVALID_USERS is built from the stream gods as a set. */
  function Gods(s: Setup): set<string>
  {
    Tiers(s).streamGods
  }

  /** The random draws and the listing an action made: the router's draws
      for `props` and `dropreward`, the caller's commands in the order they
      came back for `donate` and `me`, the recipients drawn by `donate`, and
      the purchases of `buy` with each call's reply. */
  datatype Trace = Trace(draws: CommandRouter.Draws, listed: seq<string>, picks: seq<Option<string>>,
                         bought: seq<string>, replies: seq<string>)

  const NoTrace := Trace(CommandRouter.Draws(None, None), [], [], [], [])

  /** What carrying out `a` for caller `user` does: the reply, the trace and
      the ledger afterwards. Collaborator calls leave the modelled ledger as
      it was. */
  predicate Performed(s: Setup, user: string, a: Action, inp: Inputs,
                      before: Books, after: Books, r: Response, t: Trace)
  {
    match a
    case Answer(response) => r == response && after == before
    case Delegate(call) => r == Collaborator(call) && after == before
    case Consult(call) => r == Collaborator(FromParser(call)) && after == before
    case AskHelp(topic) => r == CommandRouter.Help(s.helpTable, topic) && after == before
    case UnknownTarget(words) => r == Raises("ValueError", CommandRouter.NotFound(words)) && after == before
    case Donation =>
      && DrewFor(Gods(s), user, inp.world, before, t.listed, t.picks)
      && after == Donated(before, user, t.listed, t.picks)
      && r == Replies(GiftLines(GiftsFrom(t.listed, t.picks)))
    case Steal(victim, stolen) =>
      if stolen.Some? then
        r.Reply? &&
        CommandStealer.Outcome(after, r.text) == CommandStealer.Steal(before, user, victim, stolen.value)
      else r == Collaborator(StealCommand) && after == before
    case Coup =>
      var threshold := CoupThreshold(inp.totalUsers);
      after == before &&
      r == if CommandRouter.Decisive(inp.tablesTurned(threshold)) then Collaborator(FromParser(TurnTides)) else Reply(NotChosen(threshold))
    case Ballot(choice) =>
      r == Collaborator(FromParser(RecordVote)) && after == before.(votes := before.votes[user := choice])
    case ShowMe =>
      Listing(t.listed, before.CommandsOf(user)) && r == Reply(CommandRouter.MeText(inp.world.stats, t.listed)) && after == before
    case MarketTotal => r == Reply(CommandRouter.MarketMsg(inp.world.coolPointsTotal)) && after == before
    case BuyOne(command) => r == Collaborator(FromParser(UserBuy)) && t.bought == [command] && after == before
    case BuyMany(count) =>
      after == before &&
      (match ParseInt(count)
       case None => r == Raises("ValueError", "") && t.bought == []
       case Some(n) =>
         && |t.bought| == (if n > 0 then n else 0) && |t.replies| == |t.bought|
         && (forall i :: 0 <= i < |t.bought| ==> t.bought[i] == "random" && t.replies[i] == inp.buyReply(i))
         && r == Reply("@" + user + Join(Marked(t.replies), " ")))
    case DropReward => CommandRouter.DropDone(Tiers(s), inp.world, before, after, r, t.draws)
    case Props(target) =>
      CommandRouter.PropsDone(Tiers(s), user, target, inp.world, r, t.draws) && after == before
    case RunObs(_) => r == NoReply && after == before
    case PlaySound(sound) =>
      r == NoReply && after == before.(playRequests := before.playRequests + [PlayRequest(user, sound)])
  }

  /** Carry out an action for caller `user`. */
  method Carry(store: Store, s: Setup, user: string, a: Action, inp: Inputs)
    returns (r: Response, t: Trace)
    modifies store
    ensures Performed(s, user, a, inp, old(store.View()), store.View(), r, t)
  {
    t := NoTrace;
    match a
    case Answer(response) =>
      r := response;
    case Delegate(call) =>
      r := Collaborator(call);
    case Consult(call) =>
      r := Collaborator(FromParser(call));
    case AskHelp(topic) =>
      r := CommandRouter.Help(s.helpTable, topic);
    case UnknownTarget(words) =>
      r := Raises("ValueError", CommandRouter.NotFound(words));
    case Donation =>
      var cs, picks;
      r, cs, picks := Donate(store, Gods(s), user, inp.world);
      t := t.(listed := cs, picks := picks);
    case Steal(victim, stolen) =>
      if stolen.Some? {
        var msg := CommandStealer.StealIn(store, user, victim, stolen.value);
        r := Reply(msg);
      } else {
        r := Collaborator(StealCommand);
      }
    case Coup =>
      var threshold := CoupThreshold(inp.totalUsers);
      var tide := inp.tablesTurned(threshold);
      if CommandRouter.Decisive(tide) {
        r := Collaborator(FromParser(TurnTides));
      } else {
        r := Reply(NotChosen(threshold));
      }
    case Ballot(choice) =>
      store.CastVote(user, choice);
      r := Collaborator(FromParser(RecordVote));
    case ShowMe =>
      var owned := ListCommands(store.View(), user);
      t := t.(listed := owned);
      r := Reply(CommandRouter.MeText(inp.world.stats, owned));
    case MarketTotal =>
      r := Reply(CommandRouter.MarketMsg(inp.world.coolPointsTotal));
    case BuyOne(command) =>
      t := t.(bought := [command]);
      r := Collaborator(FromParser(UserBuy));
    case BuyMany(count) =>
      match ParseInt(count) {
        case None =>
          r := Raises("ValueError", "");
        case Some(n) =>
          var reply, bought, replies := BuyRandom(user, n, inp.buyReply);
          t := t.(bought := bought, replies := replies);
          r := Reply(reply);
      }
    case DropReward =>
      var sfx;
      r, sfx := PrizeDropper.DropReward(store, Gods(s), inp.world.chatLines, inp.world.library);
      if PrizeDropper.RewardedUser(inp.world.chatLines, Gods(s)).Some? && inp.world.library != {} {
        t := t.(draws := CommandRouter.Draws(None, Some(sfx)));
      }
    case Props(target) =>
      var draws;
      r, draws := CommandRouter.HandleProps(Tiers(s), user, target, inp.world);
      t := t.(draws := draws);
    case RunObs(_) =>
      r := NoReply;
    case PlaySound(sound) =>
      store.SavePlayRequest(user, sound);
      r := NoReply;
  }

  // ---------------------------------------------------------------------
  // Properties of the dispatch
  // ---------------------------------------------------------------------

  /** The command names each stage of the dispatch tests for. */
  const OpeningCommands: set<string> := {
    "donate", "leaderboard", "forbes", "most_popular", "steal", "dislike", "hate", "detract",
    "support", "love", "like", "coup", "revolution", "peace"}
  const AccountCommands: set<string> := {
    "facts", "paperup", "me", "permissions", "permission", "perms", "perm", "peasants",
    "loserboard", "economy", "buy"}
  const GiftCommands: set<string> := {
    "dropeffect", "dropreward", "give", "transfer", "share", "clone", "add_perm", "add_perms",
    "share_perm", "share_perms", "props", "bigups", "endorse", "help"}
  const CasinoCommands: set<string> := {
    "users", "all_bets", "all_bet", "bets", "bet", "new_cube", "cubed", "so", "streamlords",
    "streamgods", "approve", "approve_all_requests", "soundeffect"}

  /** The commands reserved for the stream gods, the stream lords, the two
      chosen accounts and beginbotbot. */
  const ParserGodCommands := ["facts", "paperup", "dropeffect", "dropreward"]
  const ParserLordCommands := ["approve", "approve_all_requests"]

  /** When each stage lets a command pass. */
  predicate SkipsOpening(user: string, command: string, p: Parsed)
  {
    || command !in OpeningCommands
    || (command in CommandRouter.DetractCommands &&
        !(Present(p.perms.targetCommand) && !Present(p.perms.targetUser)))
    || (command == "coup" && user != CommandRouter.Beginbotbot)
  }

  predicate SkipsAccounts(user: string, command: string, s: Setup)
  {
    || command !in AccountCommands
    || (command in {"facts", "paperup"} && user !in s.streamGods)
  }

  predicate SkipsGifts(user: string, command: string, s: Setup)
  {
    || command !in GiftCommands
    || (command in {"dropeffect", "dropreward"} && user !in s.streamGods)
  }

  predicate SkipsCasino(user: string, command: string, s: Setup)
  {
    || command !in CasinoCommands
    || (command == "new_cube" && user != CommandRouter.Beginbotbot)
    || (command == "cubed" && user !in CommandRouter.Chosen)
    || (command in ApproveCommands && user !in s.streamLords)
  }

  lemma PassesOpening(user: string, command: string, args: seq<string>, s: Setup, p: Parsed)
    requires SkipsOpening(user, command, p)
    ensures Dispatch(user, command, args, s, p) == DispatchAccounts(user, command, args, s, p)
  {
  }

  lemma PassesAccounts(user: string, command: string, args: seq<string>, s: Setup, p: Parsed)
    requires SkipsAccounts(user, command, s)
    ensures DispatchAccounts(user, command, args, s, p) == DispatchGifts(user, command, args, s, p)
  {
  }

  lemma PassesGifts(user: string, command: string, args: seq<string>, s: Setup, p: Parsed)
    requires SkipsGifts(user, command, s)
    ensures DispatchGifts(user, command, args, s, p) == DispatchCasino(user, command, args, s, p)
  {
  }

  lemma PassesCasino(user: string, command: string, args: seq<string>, s: Setup, p: Parsed)
    requires SkipsCasino(user, command, s)
    ensures DispatchCasino(user, command, args, s, p) == TrySoundeffect(user, command, s)
  {
  }

  /** A command every stage lets pass ends in `try_soundeffect`. */
  lemma PassesEveryBranch(user: string, command: string, args: seq<string>, s: Setup, p: Parsed)
    requires SkipsOpening(user, command, p) && SkipsAccounts(user, command, s)
    requires SkipsGifts(user, command, s) && SkipsCasino(user, command, s)
    ensures Respond(user, command, args, s, p, true) == TrySoundeffect(user, command, s)
  {
    PassesOpening(user, command, args, s, p);
    PassesAccounts(user, command, args, s, p);
    PassesGifts(user, command, args, s, p);
    PassesCasino(user, command, args, s, p);
  }

  /** A message that is not a command is not dispatched at all. */
  lemma NotACommandIgnored(user: string, command: string, args: seq<string>, s: Setup, p: Parsed)
    ensures Respond(user, command, args, s, p, false) == Answer(NoReply)
  {
  }

  /** A command no branch names goes to `try_soundeffect`: it runs as an OBS
      command for a stream lord and is saved as a play request otherwise;
      either way there is no reply. */
  lemma UnnamedCommandTriesSoundeffect(user: string, command: string, args: seq<string>, s: Setup, p: Parsed,
                                       inp: Inputs, before: Books, after: Books, r: Response, t: Trace)
    requires command !in OpeningCommands + AccountCommands + GiftCommands + CasinoCommands
    requires Performed(s, user, Respond(user, command, args, s, p, true), inp, before, after, r, t)
    ensures r == NoReply
    ensures command in s.obsCommands && user in s.streamLords ==> after == before
    ensures !(command in s.obsCommands && user in s.streamLords) ==>
      after == before.(playRequests := before.playRequests + [PlayRequest(user, command)])
  {
    PassesEveryBranch(user, command, args, s, p);
  }

  /** A tier-gated command from a caller outside its tier. */
  predicate OutsideTier(user: string, command: string, s: Setup)
  {
    || (command in ParserGodCommands && user !in s.streamGods)
    || (command in ParserLordCommands && user !in s.streamLords)
    || (command == "cubed" && user !in CommandRouter.Chosen)
    || (command in {"coup", "new_cube"} && user != CommandRouter.Beginbotbot)
  }

  /** A tier-gated command from outside its tier reaches no gated branch:
      it ends in `try_soundeffect`, as an unnamed command would. */
  lemma GatedOutsideTier(user: string, command: string, args: seq<string>, s: Setup, p: Parsed)
    requires OutsideTier(user, command, s)
    ensures Respond(user, command, args, s, p, true) == TrySoundeffect(user, command, s)
  {
    OutsideTierSkipsEarly(user, command, s, p);
    OutsideTierSkipsLate(user, command, s);
    PassesEveryBranch(user, command, args, s, p);
  }

  lemma OutsideTierSkipsEarly(user: string, command: string, s: Setup, p: Parsed)
    requires OutsideTier(user, command, s)
    ensures SkipsOpening(user, command, p) && SkipsAccounts(user, command, s)
  {
  }

  lemma OutsideTierSkipsLate(user: string, command: string, s: Setup)
    requires OutsideTier(user, command, s)
    ensures SkipsGifts(user, command, s) && SkipsCasino(user, command, s)
  {
  }

  /** `hate` without a lone command target falls through to a play request
      for "hate" itself. */
  lemma DetractWithoutCommandFallsThrough(user: string, command: string, args: seq<string>, s: Setup,
                                          p: Parsed)
    requires command in CommandRouter.DetractCommands
    requires !(Present(p.perms.targetCommand) && !Present(p.perms.targetUser))
    ensures Respond(user, command, args, s, p, true) == TrySoundeffect(user, command, s)
  {
    assert SkipsOpening(user, command, p) && SkipsAccounts(user, command, s);
    assert SkipsGifts(user, command, s) && SkipsCasino(user, command, s);
    PassesEveryBranch(user, command, args, s, p);
  }

  /** `donate` runs the donate loop: every recipient was drawn from the pool
      among those who did not own the command, gains it, and the donor loses
      it; a command stays when the draw found nobody, which happens only when
      every pool user is invalid or owns it already, or when it found the
      empty name; the reply has one line per recipient. */
  lemma DonateMovesEveryCommand(user: string, command: string, args: seq<string>, s: Setup, p: Parsed,
                                inp: Inputs, before: Books, after: Books, r: Response, t: Trace)
    requires command == "donate"
    requires Performed(s, user, Respond(user, command, args, s, p, true), inp, before, after, r, t)
    ensures Listing(t.listed, before.CommandsOf(user)) && |t.picks| == |t.listed|
    ensures forall i :: 0 <= i < |t.listed| && t.picks[i].Some? ==>
      && t.picks[i].value in inp.world.pool
      && t.picks[i].value !in PrizeDropper.InvalidUsers(Gods(s))
      && t.picks[i].value !in before.Users(t.listed[i])
    ensures forall i :: 0 <= i < |t.listed| && t.picks[i].None? ==>
      forall u :: u in inp.world.pool ==> u in PrizeDropper.InvalidUsers(Gods(s)) || u in before.Users(t.listed[i])
    ensures forall i :: 0 <= i < |t.listed| && Present(t.picks[i]) ==>
      after.Users(t.listed[i]) == (before.Users(t.listed[i]) - {user}) + {t.picks[i].value}
    ensures forall i :: 0 <= i < |t.listed| && !Present(t.picks[i]) ==>
      user in after.Users(t.listed[i]) && after.Users(t.listed[i]) == before.Users(t.listed[i])
    ensures forall c :: c !in before.CommandsOf(user) ==> after.Users(c) == before.Users(c)
    ensures after == before.(permitted := after.permitted)
    ensures r == Replies(GiftLines(GiftsFrom(t.listed, t.picks)))
  {
    DonationMovesOwnership(Gods(s), user, inp.world, before, t.listed, t.picks);
  }

  /** `steal` with a parsed command hands it and the parsed user, if any, to
      the stealer. */
  lemma StealRouted(user: string, command: string, args: seq<string>, s: Setup, p: Parsed,
                    inp: Inputs, before: Books, after: Books, r: Response, t: Trace)
    requires command == "steal" && p.perms.targetCommand.Some?
    requires Performed(s, user, Respond(user, command, args, s, p, true), inp, before, after, r, t)
    ensures r.Reply?
    ensures CommandStealer.Outcome(after, r.text) ==
      CommandStealer.Steal(before, user, p.perms.targetUser, p.perms.targetCommand.value)
  {
  }

  /** `coup` from beginbotbot asks whether the tables turned at an eighth of
      the users; an undecided tide is reported with that threshold. */
  lemma CoupForBeginbotbot(command: string, args: seq<string>, s: Setup, p: Parsed,
                           inp: Inputs, before: Books, after: Books, r: Response, t: Trace)
    requires command == "coup"
    requires Performed(s, CommandRouter.Beginbotbot, Respond(CommandRouter.Beginbotbot, command, args, s, p, true),
                       inp, before, after, r, t)
    ensures after == before
    ensures var threshold := inp.totalUsers / 8;
      r == if CommandRouter.Decisive(inp.tablesTurned(threshold)) then Collaborator(FromParser(TurnTides)) else Reply(NotChosen(threshold))
  {
    CoupRouted(command, args, s, p);
    assert Performed(s, CommandRouter.Beginbotbot, Coup, inp, before, after, r, t);
  }

  lemma CoupRouted(command: string, args: seq<string>, s: Setup, p: Parsed)
    requires command == "coup"
    ensures Respond(CommandRouter.Beginbotbot, command, args, s, p, true) == Coup
  {
  }

  /** `revolution` and `peace` record the caller's vote for that side. */
  lemma TideVotes(user: string, command: string, args: seq<string>, s: Setup, p: Parsed,
                  inp: Inputs, before: Books, after: Books, r: Response, t: Trace)
    requires command in {"revolution", "peace"}
    requires Performed(s, user, Respond(user, command, args, s, p, true), inp, before, after, r, t)
    ensures r == Collaborator(FromParser(RecordVote))
    ensures after == before.(votes := before.votes[user := command])
  {
    TideRouted(user, command, args, s, p);
    assert Performed(s, user, Ballot(command), inp, before, after, r, t);
  }

  lemma TideRouted(user: string, command: string, args: seq<string>, s: Setup, p: Parsed)
    requires command in {"revolution", "peace"}
    ensures Respond(user, command, args, s, p, true) == Ballot(command)
  {
  }

  /** `me` shows the stats, then every command of the caller when there is one. */
  lemma MeShowsCommands(user: string, command: string, args: seq<string>, s: Setup, p: Parsed,
                        inp: Inputs, before: Books, after: Books, r: Response, t: Trace)
    requires command == "me"
    requires Performed(s, user, Respond(user, command, args, s, p, true), inp, before, after, r, t)
    ensures after == before && Listing(t.listed, before.CommandsOf(user))
    ensures before.CommandsOf(user) == {} ==> r == Reply(inp.world.stats)
    ensures before.CommandsOf(user) != {} ==> r == Reply(inp.world.stats + " | " + Join(Bang(t.listed), " "))
  {
    MeRouted(user, command, args, s, p);
    assert Performed(s, user, ShowMe, inp, before, after, r, t);
    CommandRouter.MeListsCommands(inp.world.stats, t.listed);
    if before.CommandsOf(user) != {} {
      var c :| c in before.CommandsOf(user);
      assert c in t.listed;
    }
  }

  lemma MeRouted(user: string, command: string, args: seq<string>, s: Setup, p: Parsed)
    requires command == "me"
    ensures Respond(user, command, args, s, p, true) == ShowMe
  {
    PassesOpening(user, command, args, s, p);
  }

  lemma BuyRouted(user: string, command: string, args: seq<string>, s: Setup, p: Parsed)
    requires command == "buy"
    ensures Respond(user, command, args, s, p, true) ==
      if |args| > 1 then BuyMany(args[1])
      else BuyOne(if Present(p.buyPerms.targetCommand) then p.buyPerms.targetCommand.value else "random")
  {
    PassesOpening(user, command, args, s, p);
  }

  /** `buy X N` makes exactly N purchases of "random" (none when N is not
      positive) and changes nothing else in the modelled ledger; a count that
      is not a number raises ValueError before any purchase. */
  lemma BuyManyBuysRandom(user: string, command: string, args: seq<string>, s: Setup, p: Parsed,
                          inp: Inputs, before: Books, after: Books, r: Response, t: Trace)
    requires command == "buy" && |args| > 1
    requires Performed(s, user, Respond(user, command, args, s, p, true), inp, before, after, r, t)
    ensures after == before
    ensures ParseInt(args[1]).None? ==> r == Raises("ValueError", "") && t.bought == []
    ensures ParseInt(args[1]).Some? ==>
      && |t.bought| == (if ParseInt(args[1]).value > 0 then ParseInt(args[1]).value else 0)
      && (forall i :: 0 <= i < |t.bought| ==> t.bought[i] == "random")
      && |t.replies| == |t.bought|
      && (forall i :: 0 <= i < |t.replies| ==> t.replies[i] == inp.buyReply(i))
      && r == Reply("@" + user + Join(Marked(t.replies), " "))
  {
    BuyRouted(user, command, args, s, p);
  }

  /** `buy X` buys the parsed command, or "random" when none was parsed. */
  lemma BuyOneBuysParsed(user: string, command: string, args: seq<string>, s: Setup, p: Parsed,
                         inp: Inputs, before: Books, after: Books, r: Response, t: Trace)
    requires command == "buy" && |args| <= 1
    requires Performed(s, user, Respond(user, command, args, s, p, true), inp, before, after, r, t)
    ensures r == Collaborator(FromParser(UserBuy)) && after == before
    ensures t.bought == [if Present(p.buyPerms.targetCommand) then p.buyPerms.targetCommand.value else "random"]
  {
    BuyRouted(user, command, args, s, p);
  }

  /** `give` of a "random" command raises NameError; any other is handed to
      the giver. */
  lemma GiveRouted(user: string, command: string, args: seq<string>, s: Setup, p: Parsed)
    requires command in CommandRouter.GiveCommands
    ensures Respond(user, command, args, s, p, true) ==
      if CommandRouter.IsRandom(p.givePerms.targetCommand) then Answer(Raises("NameError", "")) else Consult(SwapPerm)
  {
    assert SkipsOpening(user, command, p) && SkipsAccounts(user, command, s);
    PassesOpening(user, command, args, s, p);
    PassesAccounts(user, command, args, s, p);
  }

  /** `dropeffect` from a stream god raises NameError in `drop_soundeffect`. */
  lemma DropEffectRaises(user: string, command: string, args: seq<string>, s: Setup, p: Parsed)
    requires command == "dropeffect" && user in s.streamGods
    ensures Respond(user, command, args, s, p, true) == Answer(Raises("NameError", ""))
  {
    assert SkipsOpening(user, command, p) && SkipsAccounts(user, command, s);
    PassesOpening(user, command, args, s, p);
    PassesAccounts(user, command, args, s, p);
  }

  /** `props` with no target or "random" gives to a random viewer other than
      the caller; the transfer is the collaborator's. */
  lemma PropsDefaultsToRandomUser(user: string, command: string, args: seq<string>, s: Setup, p: Parsed,
                                  inp: Inputs, before: Books, after: Books, r: Response, t: Trace)
    requires command in CommandRouter.PropsCommands
    requires Performed(s, user, Respond(user, command, args, s, p, true), inp, before, after, r, t)
    ensures r == Collaborator(TransferStreetCred) && after == before
    ensures (CommandRouter.IsRandom(p.propsUser) || !Present(p.propsUser)) && t.draws.user.Some? ==>
      && t.draws.user.value != user
      && t.draws.user.value in inp.world.pool
      && t.draws.user.value !in PrizeDropper.InvalidUsers(Gods(s))
    ensures !(CommandRouter.IsRandom(p.propsUser) || !Present(p.propsUser)) ==> t.draws.user.None?
  {
    PropsRouted(user, command, args, s, p);
    assert Performed(s, user, Props(p.propsUser), inp, before, after, r, t);
  }

  lemma PropsRouted(user: string, command: string, args: seq<string>, s: Setup, p: Parsed)
    requires command in CommandRouter.PropsCommands
    ensures Respond(user, command, args, s, p, true) == Props(p.propsUser)
  {
    assert SkipsOpening(user, command, p) && SkipsAccounts(user, command, s);
    PassesOpening(user, command, args, s, p);
    PassesAccounts(user, command, args, s, p);
  }

  /** With this dispatcher's HELP_COMMANDS as the table, `help topic` and
      `help !topic` answer that topic's text for every topic. */
  lemma HelpAnswersEveryTopic(user: string, command: string, args: seq<string>, s: Setup, p: Parsed,
                              inp: Inputs, before: Books, after: Books, r: Response, t: Trace, i: nat)
    requires command == "help" && s.helpTable == ParserHelp && i < |ParserHelpTopics|
    requires args == [ParserHelpTopics[i]] || args == ["!" + ParserHelpTopics[i]]
    requires Performed(s, user, Respond(user, command, args, s, p, true), inp, before, after, r, t)
    ensures r == Reply(ParserHelpTexts[i]) && after == before
  {
    HelpAnswersFromTable(user, command, args, s, p, inp, before, after, r, t);
    ParserHelpWellKeyed();
    CommandRouter.HelpOnTable(ParserHelp, args, i);
  }

  /** `help` answers from this dispatcher's table: `help !name` and
      `help name` give name's text, an unknown name raises KeyError, and
      `help` alone lists every topic. */
  lemma HelpAnswersFromTable(user: string, command: string, args: seq<string>, s: Setup, p: Parsed,
                             inp: Inputs, before: Books, after: Books, r: Response, t: Trace)
    requires command == "help"
    requires Performed(s, user, Respond(user, command, args, s, p, true), inp, before, after, r, t)
    ensures r == CommandRouter.Help(s.helpTable, args) && after == before
  {
    HelpRouted(user, command, args, s, p);
    assert Performed(s, user, AskHelp(args), inp, before, after, r, t);
  }

  lemma HelpRouted(user: string, command: string, args: seq<string>, s: Setup, p: Parsed)
    requires command == "help"
    ensures Respond(user, command, args, s, p, true) == AskHelp(args)
  {
    assert SkipsOpening(user, command, p) && SkipsAccounts(user, command, s);
    PassesOpening(user, command, args, s, p);
    PassesAccounts(user, command, args, s, p);
  }

  /** `cubed` from beginbot or beginbotbot needs a number as its first argument. */
  lemma CubedParsesDuration(user: string, command: string, args: seq<string>, s: Setup, p: Parsed)
    requires command == "cubed" && user in CommandRouter.Chosen
    ensures Respond(user, command, args, s, p, true) ==
      if |args| == 0 then Answer(Raises("IndexError", ""))
      else if ParseInt(args[0]).None? then Answer(Raises("ValueError", ""))
      else Consult(ClosestResult)
  {
    assert SkipsOpening(user, command, p) && SkipsAccounts(user, command, s) && SkipsGifts(user, command, s);
    PassesOpening(user, command, args, s, p);
    PassesAccounts(user, command, args, s, p);
    PassesGifts(user, command, args, s, p);
  }

  /** `streamlords` and `streamgods` list the configured names with spaces. */
  lemma TierListings(user: string, command: string, args: seq<string>, s: Setup, p: Parsed)
    requires command in {"streamlords", "streamgods"}
    ensures Respond(user, command, args, s, p, true) ==
      Answer(Reply(Join(if command == "streamlords" then s.streamLords else s.streamGods, " ")))
  {
    assert SkipsOpening(user, command, p) && SkipsAccounts(user, command, s) && SkipsGifts(user, command, s);
    PassesOpening(user, command, args, s, p);
    PassesAccounts(user, command, args, s, p);
    PassesGifts(user, command, args, s, p);
  }

  /** `approve` from a stream lord without an argument raises IndexError. */
  lemma ApproveNeedsUser(user: string, command: string, args: seq<string>, s: Setup, p: Parsed)
    requires command in ApproveCommands && user in s.streamLords
    ensures Respond(user, command, args, s, p, true) ==
      if |args| == 0 then Answer(Raises("IndexError", "")) else Consult(ApproveAll)
  {
    assert SkipsOpening(user, command, p) && SkipsAccounts(user, command, s) && SkipsGifts(user, command, s);
    PassesOpening(user, command, args, s, p);
    PassesAccounts(user, command, args, s, p);
    PassesGifts(user, command, args, s, p);
  }
}
