/** `CommandStealer.steal` (chat_thief/commands/command_stealer.py): a thief
    whose cool points cover a command's price takes it over from a victim, and
    the price goes up. Cool points are only read. */
module CommandStealer {
  import opened Common
  import opened Ledger

  datatype Outcome = Outcome(books: Books, msg: string)

  function StoleMsg(thief: string, victim: string): string
  {
    "@" + thief + " stole from @" + victim
  }

  function BrokeMsg(thief: string): string
  {
    "@" + thief + " BROKE BOI!"
  }

  lemma StoleIsNotBroke(thief: string, victim: string)
    ensures StoleMsg(thief, victim) != BrokeMsg(thief)
  {
    var k := |thief| + 1;
    assert StoleMsg(thief, victim)[k] == ' ' && BrokeMsg(thief)[k] == ' ';
    assert StoleMsg(thief, victim)[k + 1] == 's' && BrokeMsg(thief)[k + 1] == 'B';
  }

  /** The users a victim names: nobody when the parser found no victim. */
  function Named(victim: Option<string>): set<string>
  {
    match victim
    case None => {}
    case Some(v) => {v}
  }

  /** The ledger and reply after `steal()`. The price is read once for the
      check and read again, after the ownership change, for `increase_cost`.
      A missing victim is rendered "None" and takes nobody's command away. */
  function Steal(b: Books, thief: string, victim: Option<string>, command: string): (r: Outcome)
    // a thief who cannot pay is told so and the ledger is left exactly as it was
    ensures b.CoolPoints(thief) < b.Cost(command) ==> r == Outcome(b, BrokeMsg(thief))
    // `>=`: exactly enough cool points is enough
    ensures b.CoolPoints(thief) >= b.Cost(command) ==> r.msg == StoleMsg(thief, Show(victim))
    // on success the thief may play the command and the victim may not (when they differ)
    ensures b.CoolPoints(thief) >= b.Cost(command) && victim != Some(thief) ==>
      thief in r.books.Users(command) && Named(victim) !! r.books.Users(command)
    // on success the other owners keep the command
    ensures b.CoolPoints(thief) >= b.Cost(command) ==>
      r.books.Users(command) == (b.Users(command) + {thief}) - Named(victim)
    // on success the price grows by twice the price: it triples
    ensures b.CoolPoints(thief) >= b.Cost(command) ==>
      r.books.Cost(command) == 3 * b.Cost(command)
    // only this command's owners and price can change, and cool points never do
    ensures r.books == b.(permitted := r.books.permitted, costs := r.books.costs)
    ensures forall d :: d != command ==> r.books.Users(d) == b.Users(d) && r.books.Cost(d) == b.Cost(d)
  {
    if b.CoolPoints(thief) >= b.Cost(command) then
      var granted := Allow(b, command, thief);
      var revoked := if victim.Some? then Unallow(granted, command, victim.value) else granted;
      Outcome(CostIncreased(revoked, command, revoked.Cost(command) * 2), StoleMsg(thief, Show(victim)))
    else
      Outcome(b, BrokeMsg(thief))
  }

  /** The reply alone tells whether the steal went through. */
  lemma StealSucceedsIffAffordable(b: Books, thief: string, victim: Option<string>, command: string)
    ensures Steal(b, thief, victim, command).msg == StoleMsg(thief, Show(victim))
        <==> b.CoolPoints(thief) >= b.Cost(command)
  {
    StoleIsNotBroke(thief, Show(victim));
  }

  /** With every price at least 1, a successful steal strictly raises the
      price and keeps every price at least 1. */
  lemma StealRaisesCost(b: Books, thief: string, victim: Option<string>, command: string)
    requires b.Valid()
    requires b.CoolPoints(thief) >= b.Cost(command)
    ensures Steal(b, thief, victim, command).books.Cost(command) > b.Cost(command)
    ensures Steal(b, thief, victim, command).books.Valid()
  {
    var r := Steal(b, thief, victim, command);
    assert b.Cost(command) >= 1;
    forall c | c in r.books.costs ensures r.books.costs[c] >= 1 {
      assert r.books.costs[c] == r.books.Cost(c);
      if c != command {
        assert r.books.Cost(c) == b.Cost(c);
        assert c in b.costs;
      }
    }
  }

  /** Ownership by the victim is never checked: a victim who never had the
      command still "loses" it to a thief who can pay. */
  lemma StealFromNonOwner(b: Books, thief: string, victim: string, command: string)
    requires victim !in b.Users(command) && thief != victim
    requires b.CoolPoints(thief) >= b.Cost(command)
    ensures Steal(b, thief, Some(victim), command).msg == StoleMsg(thief, victim)
    ensures Steal(b, thief, Some(victim), command).books.Users(command) == b.Users(command) + {thief}
  {
  }

  /** Without a victim the steal goes through all the same: a thief who can
      pay becomes one more owner, the price triples, and the reply names
      "@None". */
  lemma StealWithoutVictim(b: Books, thief: string, command: string)
    requires b.CoolPoints(thief) >= b.Cost(command)
    ensures Steal(b, thief, None, command).msg == "@" + thief + " stole from @None"
    ensures Steal(b, thief, None, command).books.Users(command) == b.Users(command) + {thief}
    ensures Steal(b, thief, None, command).books.Cost(command) == 3 * b.Cost(command)
  {
  }

  /** A thief who steals from themself loses the command: the grant comes
      first and the revocation second. */
  lemma StealFromSelf(b: Books, thief: string, command: string)
    requires b.CoolPoints(thief) >= b.Cost(command)
    ensures thief !in Steal(b, thief, Some(thief), command).books.Users(command)
  {
  }

  /** `CommandStealer(thief, victim, command).steal()` on the store. */
  method StealIn(store: Store, thief: string, victim: Option<string>, command: string) returns (msg: string)
    modifies store`permitted, store`costs
    ensures Outcome(store.View(), msg) == Steal(old(store.View()), thief, victim, command)
  {
    var cost := store.View().Cost(command);
    var coolPoints := store.View().CoolPoints(thief);
    if coolPoints >= cost {
      store.AllowUser(command, thief);
      if victim.Some? {
        store.UnallowUser(command, victim.value);
      }
      store.IncreaseCost(command, store.View().Cost(command) * 2);
      msg := StoleMsg(thief, Show(victim));
    } else {
      msg := BrokeMsg(thief);
    }
  }
}
