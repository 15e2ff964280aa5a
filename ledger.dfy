/** The persistence layer the handlers read and write (the `User`, `Command`,
    `Vote`, `Issue`, `CubeBet` and `PlaySoundeffectRequest` records), seen as
    one ledger: which users may play each command, what each command costs,
    each user's cool points, each user's vote, and the records the handlers
    append. `Books` is its value; `Store` is the mutable object the handlers
    change one field at a time. */
module Ledger {

  datatype Issue = Issue(user: string, msg: string)
  datatype Bet = Bet(name: string, duration: int)
  datatype PlayRequest = PlayRequest(user: string, command: string)

  /** A command nobody has priced yet costs 1 cool point. */
  const DefaultCost := 1

  datatype Books = Books(
    permitted: map<string, set<string>>,   // command name -> users allowed to play it
    costs: map<string, int>,               // command name -> price in cool points
    coolPoints: map<string, int>,          // user name -> cool points
    votes: map<string, string>,            // user name -> "peace" | "revolution" | ...
    rideOrDie: map<string, string>,        // user name -> the user they picked
    issues: seq<Issue>,
    bets: seq<Bet>,
    playRequests: seq<PlayRequest>)
  {
    /** `Command(c).users()`: records are created on first use, empty. */
    function Users(c: string): set<string>
    {
      if c in permitted then permitted[c] else {}
    }

    /** `Command(c).cost()`. */
    function Cost(c: string): int
    {
      if c in costs then costs[c] else DefaultCost
    }

    /** `User(u).cool_points()`. */
    function CoolPoints(u: string): int
    {
      if u in coolPoints then coolPoints[u] else 0
    }

    /** `User(u).commands()`, as a set. */
    function CommandsOf(u: string): (r: set<string>)
      ensures forall c :: c in r <==> u in Users(c)
    {
      set c | c in permitted && u in permitted[c]
    }

    /** Every price is at least one cool point. */
    predicate Valid()
    {
      forall c :: c in costs ==> costs[c] >= 1
    }
  }

  const Empty := Books(map[], map[], map[], map[], map[], [], [], [])

  /** `cs` lists every element of `s` exactly once. */
  predicate Listing(cs: seq<string>, s: set<string>)
  {
    && (forall i, j :: 0 <= i < j < |cs| ==> cs[i] != cs[j])
    && (forall i :: 0 <= i < |cs| ==> cs[i] in s)
    && (forall c :: c in s ==> c in cs)
  }

  /** `User(u).commands()`: every command `u` may play, each once. The order
      the records come back in is not modelled: any order may be chosen. */
  method ListCommands(b: Books, u: string) returns (cs: seq<string>)
    ensures Listing(cs, b.CommandsOf(u))
  {
    var remaining := b.CommandsOf(u);
    cs := [];
    while remaining != {}
      invariant remaining <= b.CommandsOf(u)
      invariant forall i, j :: 0 <= i < j < |cs| ==> cs[i] != cs[j]
      invariant forall c :: c in cs <==> c in b.CommandsOf(u) && c !in remaining
      decreases remaining
    {
      var c :| c in remaining;
      cs := cs + [c];
      remaining := remaining - {c};
    }
  }

  /** `Command(c).allow_user(u)`. */
  function Allow(b: Books, c: string, u: string): (r: Books)
    ensures r.Users(c) == b.Users(c) + {u}
    ensures forall d :: d != c ==> r.Users(d) == b.Users(d)
    ensures r == b.(permitted := r.permitted)
  {
    b.(permitted := b.permitted[c := b.Users(c) + {u}])
  }

  /** `Command(c).unallow_user(u)`. */
  function Unallow(b: Books, c: string, u: string): (r: Books)
    ensures r.Users(c) == b.Users(c) - {u}
    ensures forall d :: d != c ==> r.Users(d) == b.Users(d)
    ensures r == b.(permitted := r.permitted)
  {
    if c in b.permitted then b.(permitted := b.permitted[c := b.permitted[c] - {u}]) else b
  }

  /** `Command(c).increase_cost(amount)`: the price grows by `amount`. */
  function CostIncreased(b: Books, c: string, amount: int): (r: Books)
    ensures r.Cost(c) == b.Cost(c) + amount
    ensures forall d :: d != c ==> r.Cost(d) == b.Cost(d)
    ensures r == b.(costs := r.costs)
    ensures b.Valid() && amount >= 0 ==> r.Valid()
  {
    b.(costs := b.costs[c := b.Cost(c) + amount])
  }

  class Store {
    var permitted: map<string, set<string>>
    var costs: map<string, int>
    var coolPoints: map<string, int>
    var votes: map<string, string>
    var rideOrDie: map<string, string>
    var issues: seq<Issue>
    var bets: seq<Bet>
    var playRequests: seq<PlayRequest>

    /** The ledger this store holds right now. */
    function View(): Books
      reads this
    {
      Books(permitted, costs, coolPoints, votes, rideOrDie, issues, bets, playRequests)
    }

    constructor ()
      ensures View() == Empty
    {
      permitted, costs, coolPoints, votes, rideOrDie := map[], map[], map[], map[], map[];
      issues, bets, playRequests := [], [], [];
    }

    method AllowUser(c: string, u: string)
      modifies this`permitted
      ensures View() == Allow(old(View()), c, u)
    {
      permitted := permitted[c := View().Users(c) + {u}];
    }

    method UnallowUser(c: string, u: string)
      modifies this`permitted
      ensures View() == Unallow(old(View()), c, u)
    {
      if c in permitted {
        permitted := permitted[c := permitted[c] - {u}];
      }
    }

    method IncreaseCost(c: string, amount: int)
      modifies this`costs
      ensures View() == CostIncreased(old(View()), c, amount)
    {
      costs := costs[c := View().Cost(c) + amount];
    }

    /** `Vote(user=u).vote(choice)`: the last vote of a user wins. */
    method CastVote(u: string, choice: string)
      modifies this`votes
      ensures View() == old(View()).(votes := old(votes)[u := choice])
    {
      votes := votes[u := choice];
    }

    /** `Issue(user=u, msg=msg).save()`. */
    method SaveIssue(u: string, msg: string)
      modifies this`issues
      ensures View() == old(View()).(issues := old(issues) + [Issue(u, msg)])
    {
      issues := issues + [Issue(u, msg)];
    }

    /** `CubeBet(name=u, duration=d).save()`. */
    method SaveBet(u: string, duration: int)
      modifies this`bets
      ensures View() == old(View()).(bets := old(bets) + [Bet(u, duration)])
    {
      bets := bets + [Bet(u, duration)];
    }

    /** `CubeBet.purge()`: every bet is dropped. */
    method PurgeBets()
      modifies this`bets
      ensures View() == old(View()).(bets := [])
    {
      bets := [];
    }

    /** `User(u).set_ride_or_die(friend)`. */
    method SetRideOrDie(u: string, friend: string)
      modifies this`rideOrDie
      ensures View() == old(View()).(rideOrDie := old(rideOrDie)[u := friend])
    {
      rideOrDie := rideOrDie[u := friend];
    }

    /** `PlaySoundeffectRequest(user=u, command=c).save()`. */
    method SavePlayRequest(u: string, c: string)
      modifies this`playRequests
      ensures View() == old(View()).(playRequests := old(playRequests) + [PlayRequest(u, c)])
    {
      playRequests := playRequests + [PlayRequest(u, c)];
    }

    /** `User(u).bankrupt()`: the user's cool points drop to zero. */
    method Bankrupt(u: string)
      modifies this`coolPoints
      ensures View() == old(View()).(coolPoints := old(coolPoints)[u := 0])
    {
      coolPoints := coolPoints[u := 0];
    }
  }
}
