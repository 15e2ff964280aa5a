/** chat_thief/prize_dropper.py: picking a random viewer, granting a sound
    effect to a viewer, and choosing who gets the reward from the chat log.
    The random source is a nondeterministic choice; the recent-viewer pool,
    the sound-effect library and the chat log's lines are parameters. */
module PrizeDropper {
  import opened Common
  import opened Ledger

  const Nightbot := "nightbot"
  const TwitchHost := ".tim.twitch.tv"
  const ConnectingMsg := "{\"message\": \"Connecting to #beginbot as beginbotbot\"}"

  /** INVALID_USERS for the configured stream gods. */
  function InvalidUsers(gods: set<string>): (r: set<string>)
    ensures Nightbot in r && TwitchHost in r && gods <= r
    ensures forall u :: u in r ==> u == Nightbot || u == TwitchHost || u in gods
  {
    {Nightbot, TwitchHost} + gods
  }

  /** A name `random_user` may hand out. */
  predicate Eligible(u: string, gods: set<string>, blacklist: set<string>)
  {
    u !in InvalidUsers(gods) && u !in blacklist
  }

  /** Some user of the pool is eligible. */
  predicate AnyEligible(pool: set<string>, gods: set<string>, blacklist: set<string>)
  {
    exists u :: u in pool && Eligible(u, gods, blacklist)
  }

  /** `random_user(blacklisted_users)`: draw from the pool until the draw is
      neither invalid nor blacklisted. An empty pool makes the draw raise,
      which is answered with None. The source draws without bound; here the
      first `budget` draws are made one by one, and when none of them was
      eligible an eligible user is chosen outright. Only a pool without an
      eligible user, on which the source never returns, gives None. */
  method RandomUser(pool: set<string>, gods: set<string>, blacklist: set<string>, budget: nat)
    returns (r: Option<string>)
    ensures r.Some? ==> r.value in pool && Eligible(r.value, gods, blacklist)
    ensures r.Some? <==> AnyEligible(pool, gods, blacklist)
  {
    if pool == {} {
      return None;
    }
    var looking := true;
    var user := "";
    var attempts := 0;
    while looking && attempts < budget
      invariant !looking ==> user in pool && Eligible(user, gods, blacklist)
      decreases budget - attempts
    {
      user :| user in pool;
      if Eligible(user, gods, blacklist) {
        looking := false;
      }
      attempts := attempts + 1;
    }
    if looking {
      if AnyEligible(pool, gods, blacklist) {
        user :| user in pool && Eligible(user, gods, blacklist);
      } else {
        return None;
      }
    }
    return Some(user);
  }

  /** `_is_int_between(s)`: `int(s)` succeeds and lies in `range(1, 100)`. */
  function IsIntBetween(s: string): bool
  {
    match ParseInt(s)
    case None => false
    case Some(n) => 1 <= n < 100
  }

  /** On the decimal text of a number, the check accepts exactly 1..99; it
      accepts no negative number and nothing `int` refuses. */
  lemma IsIntBetweenExactly(n: nat)
    ensures IsIntBetween(Decimal(n)) <==> 1 <= n <= 99
    ensures !IsIntBetween("-" + Decimal(n))
  {
    ParseIntOfDecimal(n);
  }

  function AccessMsg(user: string, sfx: string): string
  {
    "@" + user + " now has access to Sound Effect: !" + sfx
  }

  /** `drop_effect(user, soundeffect)`: an invalid user gets nothing and None;
      anyone else may now play the sound effect and is told so. */
  method DropEffect(store: Store, gods: set<string>, user: string, sfx: string)
    returns (r: Option<string>)
    modifies store`permitted
    ensures user in InvalidUsers(gods) ==> r == None && store.View() == old(store.View())
    ensures user !in InvalidUsers(gods) ==>
      r == Some(AccessMsg(user, sfx)) && store.View() == Allow(old(store.View()), sfx, user)
  {
    if user !in InvalidUsers(gods) {
      store.AllowUser(sfx, user);
      return Some(AccessMsg(user, sfx));
    }
    return None;
  }

  /** The condition of the list comprehension in `dropreward`. */
  predicate Kept(line: string, gods: set<string>)
  {
    line != "" && Before(line, ':') !in InvalidUsers(gods) && line != ConnectingMsg
  }

  /** The chat lines `dropreward` keeps: the non-empty ones that are not the
      connection notice and whose speaker is not an invalid user, in order. */
  function KeptLines(lines: seq<string>, gods: set<string>): (r: seq<string>)
    ensures |r| <= |lines|
    ensures forall i :: 0 <= i < |r| ==> r[i] in lines && Kept(r[i], gods)
    ensures forall i :: 0 <= i < |lines| && Kept(lines[i], gods) ==> lines[i] in r
  {
    if |lines| == 0 then []
    else
      var init := lines[..|lines| - 1];
      var last := lines[|lines| - 1];
      assert lines == init + [last];
      KeptLines(init, gods) + (if Kept(last, gods) then [last] else [])
  }

  /** The filter keeps the log's order: nothing from no lines, and one more
      line keeps the earlier result and adds that line when it is kept. */
  lemma KeptLinesInOrder(init: seq<string>, line: string, gods: set<string>)
    ensures KeptLines([], gods) == []
    ensures KeptLines(init + [line], gods) == KeptLines(init, gods) + (if Kept(line, gods) then [line] else [])
  {
    assert (init + [line])[..|init|] == init;
  }

  /** Which chat lines the filter keeps, one flag per line. */
  function KeptMask(lines: seq<string>, gods: set<string>): (m: seq<bool>)
    ensures |m| == |lines|
    ensures forall i :: 0 <= i < |lines| ==> m[i] == Kept(lines[i], gods)
  {
    seq(|lines|, i requires 0 <= i < |lines| => Kept(lines[i], gods))
  }

  /** The last raised flag among the first n, found from the end. */
  function LastRaised(m: seq<bool>, n: nat): (r: Option<nat>)
    requires n <= |m|
    ensures r.Some? ==> r.value < n && m[r.value]
    ensures r.Some? ==> forall j :: r.value < j < n ==> !m[j]
    ensures r.None? ==> forall j :: 0 <= j < n ==> !m[j]
  {
    if n == 0 then None
    else if m[n - 1] then Some(n - 1)
    else LastRaised(m, n - 1)
  }

  /** The position of the last chat line the filter keeps. */
  function LastKept(lines: seq<string>, gods: set<string>): (r: Option<nat>)
    ensures r.Some? ==> r.value < |lines| && Kept(lines[r.value], gods)
    ensures r.Some? ==> forall j :: r.value < j < |lines| ==> !Kept(lines[j], gods)
    ensures r.None? ==> forall j :: 0 <= j < |lines| ==> !Kept(lines[j], gods)
  {
    LastRaised(KeptMask(lines, gods), |lines|)
  }

  /** The filter over the first n lines ends with the line whose flag is
      the last one raised, and is empty exactly when none is. */
  lemma {:induction false} KeptPrefixEndsWithLastKept(lines: seq<string>, gods: set<string>, n: nat)
    requires n <= |lines|
    ensures KeptLines(lines[..n], gods) == [] <==> LastRaised(KeptMask(lines, gods), n).None?
    ensures KeptLines(lines[..n], gods) != [] ==>
      KeptLines(lines[..n], gods)[|KeptLines(lines[..n], gods)| - 1] ==
      lines[LastRaised(KeptMask(lines, gods), n).value]
  {
    if n > 0 {
      assert lines[..n][..n - 1] == lines[..n - 1];
      KeptPrefixEndsWithLastKept(lines, gods, n - 1);
    }
  }

  /** `chat_lines[-1]` is the last line the filter keeps. */
  lemma KeptLinesEndWithLastKept(lines: seq<string>, gods: set<string>)
    ensures KeptLines(lines, gods) == [] <==> LastKept(lines, gods).None?
    ensures KeptLines(lines, gods) != [] ==>
      KeptLines(lines, gods)[|KeptLines(lines, gods)| - 1] == lines[LastKept(lines, gods).value]
  {
    assert lines[..|lines|] == lines;
    KeptPrefixEndsWithLastKept(lines, gods, |lines|);
  }

  /** Who `dropreward` rewards: the speaker of the last kept line, or None
      where `chat_lines[-1]` raises IndexError. */
  function RewardedUser(lines: seq<string>, gods: set<string>): (r: Option<string>)
    ensures r.Some? ==> r.value !in InvalidUsers(gods)
  {
    var kept := KeptLines(lines, gods);
    if kept == [] then None else Some(Before(kept[|kept| - 1], ':'))
  }

  /** The rewarded user spoke the last kept line, and is never invalid. */
  lemma RewardedUserSpokeLast(lines: seq<string>, gods: set<string>)
    ensures RewardedUser(lines, gods).None? <==> forall j :: 0 <= j < |lines| ==> !Kept(lines[j], gods)
    ensures RewardedUser(lines, gods).Some? ==>
      var i := LastKept(lines, gods).value;
      RewardedUser(lines, gods).value == Before(lines[i], ':') &&
      RewardedUser(lines, gods).value !in InvalidUsers(gods)
  {
    KeptLinesEndWithLastKept(lines, gods);
  }

  /** `dropreward()`: reward the last speaker with a random sound effect from
      the library. With no kept line the indexing raises; with an empty
      library the draw raises; otherwise the grant always happens, because
      the filter already removed every invalid speaker. */
  method DropReward(store: Store, gods: set<string>, lines: seq<string>, library: set<string>)
    returns (r: Response, sfx: string)
    modifies store`permitted
    ensures RewardedUser(lines, gods).None? ==>
      r == Raises("IndexError", "") && store.View() == old(store.View())
    ensures RewardedUser(lines, gods).Some? && library == {} ==>
      r == Raises("ValueError", "") && store.View() == old(store.View())
    ensures RewardedUser(lines, gods).Some? && library != {} ==>
      var user := RewardedUser(lines, gods).value;
      sfx in library && r == Reply(AccessMsg(user, sfx)) &&
      store.View() == Allow(old(store.View()), sfx, user)
  {
    sfx := "";
    var kept := KeptLines(lines, gods);
    if kept == [] {
      return Raises("IndexError", ""), sfx;
    }
    var user := Before(kept[|kept| - 1], ':');
    if library == {} {
      return Raises("ValueError", ""), sfx;
    }
    sfx :| sfx in library;
    RewardedUserSpokeLast(lines, gods);
    var granted := DropEffect(store, gods, user, sfx);
    r := if granted.Some? then Reply(granted.value) else NoReply;
  }

  /** `drop_random_soundeffect_to_user(user)`: a random library entry for a
      named user; None for an invalid user. */
  method DropToUser(store: Store, gods: set<string>, user: string, library: set<string>)
    returns (r: Response, sfx: string)
    modifies store`permitted
    ensures library == {} ==> r == Raises("ValueError", "") && store.View() == old(store.View())
    ensures library != {} && user in InvalidUsers(gods) ==>
      r == NoReply && store.View() == old(store.View())
    ensures library != {} && user !in InvalidUsers(gods) ==>
      sfx in library && r == Reply(AccessMsg(user, sfx)) &&
      store.View() == Allow(old(store.View()), sfx, user)
  {
    sfx := "";
    if library == {} {
      return Raises("ValueError", ""), sfx;
    }
    sfx :| sfx in library;
    var granted := DropEffect(store, gods, user, sfx);
    r := if granted.Some? then Reply(granted.value) else NoReply;
  }
}
