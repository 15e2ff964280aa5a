/** Values shared by every part of the model: optional values, the reply a
    handler hands back to chat, and the few pieces of Python string handling
    the handlers rely on (`" ".join`, `str.split(sep)[0]`, `int(s)`). */
module Common {

  datatype Option<T> = None | Some(value: T)

  /** The calls into collaborators outside the model whose replies a
      handler passes on, named after the method the source calls. */
  datatype Call =
    | PurgeNews           // BreakingNews.purge
    | AllIssues           // Issue.all
    | MostPopular         // Command.most_popular
    | AllBets             // CubeBet.all_bets
    | PurgeCube           // CubeCasino.purge
    | Gamble              // CubeCasino.gamble
    | AttemptCoup         // Revolution.attempt_coup
    | Donate              // Donator.donate
    | ApproveUser         // SoundeffectRequest.approve_user
    | ApproveCommand      // SoundeffectRequest.approve_command
    | ApproveDocId        // SoundeffectRequest.approve_doc_id
    | Detract             // SFXVote.detract
    | Support             // SFXVote.support
    | SaveRequest         // SoundeffectRequest.save
    | ReviveCommand       // Command.revive
    | ReviveUser          // User.revive
    | SilenceCommand      // Command.silence
    | KillUser            // User.kill
    | FetchPermissions    // PermissionsFetcher.fetch_permissions
    | IncreaseCost        // Command.increase_cost
    | BuyCommand          // CommandBuyer.buy
    | StealCommand        // CommandStealer.steal
    | GiveCommand         // CommandGiver.give
    | ShareCommand        // CommandSharer.share
    | TransferStreetCred  // StreetCredTransfer.transfer
    | Airdrop             // Airdrop.drop
    | RunObsCommand       // os.system running an OBS command
    | FromParser(parserCall: ParserCall)  // one of the older dispatcher's own collaborators

  /** The collaborators only the older dispatcher, `CommandParser`, calls. */
  datatype ParserCall =
    | Leaderboard         // leaderboard
    | Loserboard          // loserboard
    | Facts               // Facts.available_sounds
    | Paperup             // User.paperup
    | RecentPeasants      // ChatLogs.recent_stream_peasants
    | PresentUsers        // WelcomeCommittee.present_users
    | Shoutout            // shoutout
    | ApproveAll          // ApproveAllRequests.approve
    | TurnTides           // Revolution.turn_the_tides
    | RecordVote          // Vote.vote
    | CasinoBets          // CubeCasino.all_bets
    | PlaceCubeBet        // CubeCasino.bet
    | ClosestResult       // CubeCasino.closet_result
    | UserBuy             // User.buy
    | SwapPerm            // CommandGiver.swap_perm

  /** What a handler gives back to the chat loop. An escaping exception is
      its class and its message: the text the source raises it with, or ""
      when Python raises it itself (Python's own messages are not modelled). */
  datatype Response =
    | NoReply                       // the handler returns None
    | Reply(text: string)           // one chat line
    | Replies(lines: seq<string>)   // a Python list of chat lines
    | Raises(error: string, message: string)  // an exception escapes the handler
    | Collaborator(call: Call)      // the reply comes from a collaborator outside the model

  /** Python truthiness of an optional string field: neither None nor "". */
  predicate Present(o: Option<string>)
  {
    o.Some? && o.value != ""
  }

  /** An optional string as an f-string renders it. */
  function Show(o: Option<string>): string
  {
    match o
    case None => "None"
    case Some(s) => s
  }

  /** `sep.join(parts)`. */
  function Join(parts: seq<string>, sep: string): string
    decreases |parts|
  {
    if |parts| == 0 then ""
    else if |parts| == 1 then parts[0]
    else parts[0] + sep + Join(parts[1..], sep)
  }

  /** Every name with a `!` in front, as the listings write commands. */
  function Bang(names: seq<string>): (r: seq<string>)
    ensures |r| == |names|
    ensures forall i :: 0 <= i < |names| ==> r[i] == "!" + names[i]
  {
    if |names| == 0 then [] else ["!" + names[0]] + Bang(names[1..])
  }

  /** A Python dict literal, as its (key, value) pairs in insertion order. */
  function Lookup(table: seq<(string, string)>, key: string): (r: Option<string>)
    ensures r.Some? ==> (key, r.value) in table
    ensures r.None? ==> forall i :: 0 <= i < |table| ==> table[i].0 != key
  {
    if |table| == 0 then None
    else if table[0].0 == key then Some(table[0].1)
    else Lookup(table[1..], key)
  }

  /** A dict literal built from its keys and its values, in the same order. */
  function Pairs(keys: seq<string>, values: seq<string>): (r: seq<(string, string)>)
    requires |keys| == |values|
    ensures |r| == |keys|
    ensures forall i :: 0 <= i < |keys| ==> r[i] == (keys[i], values[i])
  {
    if |keys| == 0 then [] else [(keys[0], values[0])] + Pairs(keys[1..], values[1..])
  }

  /** The keys of a dict literal, in insertion order. */
  function Keys(table: seq<(string, string)>): (r: seq<string>)
    ensures |r| == |table|
    ensures forall i :: 0 <= i < |table| ==> r[i] == table[i].0
  {
    if |table| == 0 then [] else [table[0].0] + Keys(table[1..])
  }

  /** `s.split(sep)[0]`: the part of `s` in front of the first `sep`, or all of `s`. */
  function Before(s: string, sep: char): (r: string)
    ensures r <= s
    ensures sep !in r
    ensures |r| < |s| ==> s[|r|] == sep
  {
    if |s| == 0 || s[0] == sep then "" else [s[0]] + Before(s[1..], sep)
  }

  predicate IsDigit(c: char)
  {
    '0' <= c <= '9'
  }

  predicate AllDigits(s: string)
  {
    |s| > 0 && forall i :: 0 <= i < |s| ==> IsDigit(s[i])
  }

  function DigitsValue(s: string): nat
    requires forall i :: 0 <= i < |s| ==> IsDigit(s[i])
  {
    if |s| == 0 then 0
    else
      var last := s[|s| - 1];
      assert IsDigit(last);
      DigitsValue(s[..|s| - 1]) * 10 + (last as int - '0' as int)
  }

  /** `int(s)` on a string of ASCII decimal digits with an optional sign;
      None where Python raises ValueError. */
  function ParseInt(s: string): (r: Option<int>)
    ensures r.Some? <==> AllDigits(s) || (|s| > 1 && s[0] in "+-" && AllDigits(s[1..]))
  {
    if AllDigits(s) then Some(DigitsValue(s))
    else if |s| > 1 && s[0] == '+' && AllDigits(s[1..]) then Some(DigitsValue(s[1..]))
    else if |s| > 1 && s[0] == '-' && AllDigits(s[1..]) then Some(-(DigitsValue(s[1..]) as int))
    else None
  }

  /** `str(n)` for a natural number. */
  function Decimal(n: nat): (r: string)
    ensures AllDigits(r)
  {
    if n < 10 then [('0' as int + n) as char]
    else Decimal(n / 10) + [('0' as int + n % 10) as char]
  }

  /** `str(i)` for any integer. */
  function IntText(i: int): string
  {
    if i < 0 then "-" + Decimal(-i) else Decimal(i)
  }

  /** One leading `!` removed, as `help` does with its argument. */
  function StripBang(s: string): (r: string)
    ensures |s| > 0 && s[0] == '!' ==> "!" + r == s
    ensures (|s| == 0 || s[0] != '!') ==> r == s
  {
    if |s| > 0 && s[0] == '!' then s[1..] else s
  }

  lemma {:induction false} DigitsOfDecimal(n: nat)
    ensures DigitsValue(Decimal(n)) == n
  {
    if n >= 10 {
      var d := Decimal(n);
      assert d[..|d| - 1] == Decimal(n / 10);
      DigitsOfDecimal(n / 10);
    }
  }

  /** `int(str(n)) == n` and `int("-" + str(n)) == -n`. */
  lemma ParseIntOfDecimal(n: nat)
    ensures ParseInt(Decimal(n)) == Some(n)
    ensures ParseInt("-" + Decimal(n)) == Some(-(n as int))
  {
    DigitsOfDecimal(n);
    var d := Decimal(n);
    assert ("-" + d)[1..] == d;
    assert !AllDigits("-" + d) by { assert !IsDigit(("-" + d)[0]); }
  }
}
