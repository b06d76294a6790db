/**
 The treasury float sweep: one pass over the user accounts, one retry an account.
 (apps/api-gateway/src/treasury-sweep.ts)

 Amounts are whole naira, balances and fees kobo.  The provider's ledger is modelled with it: a
 payout moves money out of one account, into transit towards the treasury, and takes a fee.
 */
module Sweep {
  import opened Options

  // ---------- payout status ----------

  predicate OccursAt(s: string, i: nat, part: string) {
    i + |part| <= |s| && s[i..i + |part|] == part
  }

  predicate Contains(s: string, part: string) {
    exists i | 0 <= i <= |s| :: OccursAt(s, i, part)
  }

  /** The sweep's own test of an upper-cased status. */
  predicate SweepRejects(status: string) {
    Contains(status, "FAIL") || Contains(status, "REJECT")
  }

  const FAILED_STATUSES := {"FAILED", "FAILURE", "REVERSED", "CANCELLED", "CANCELED", "REJECTED", "DECLINED", "RETURNED", "EXPIRED"}

  lemma ContainsIs(s: string, part: string)
    ensures Contains(s, part) <==> exists a, b :: s == a + part + b
  {
    if Contains(s, part) {
      var i :| 0 <= i <= |s| && OccursAt(s, i, part);
      assert s == s[..i] + part + s[i + |part|..];
    }
    forall a, b | s == a + part + b
      ensures Contains(s, part)
    {
      assert OccursAt(s, |a|, part);
    }
  }

  /** The sweep rejects exactly the statuses that hold FAIL or REJECT somewhere, and records every other answer it hears. */
  lemma RejectsIs(status: string, fate: Fate)
    ensures SweepRejects(status) <==> exists a, b :: status == a + "FAIL" + b || status == a + "REJECT" + b
    ensures fate.Recorded() <==>
      !fate.replyLost && forall a, b :: fate.status != a + "FAIL" + b && fate.status != a + "REJECT" + b
  {
    ContainsIs(status, "FAIL");
    ContainsIs(status, "REJECT");
    ContainsIs(fate.status, "FAIL");
    ContainsIs(fate.status, "REJECT");
    hide Contains;
  }

  /**
   The sweep counts a payout as swept unless its status says FAIL or REJECT.  Measured against the
   client package's own table of failed statuses, it recognises three of the nine.
   */
  lemma SweepMissesFailures(status: string)
    requires status in FAILED_STATUSES
    ensures SweepRejects(status) <==> status in {"FAILED", "FAILURE", "REJECTED"}
  {
    if status == "FAILED" || status == "FAILURE" {
      assert OccursAt(status, 0, "FAIL");
    } else if status == "REJECTED" {
      assert OccursAt(status, 0, "REJECT");
    } else {
      Absent(status, "FAIL");
      Absent(status, "REJECT");
    }
  }

  /** Two letters that never match in the right places are enough. */
  lemma Absent(s: string, part: string)
    requires |part| >= 3 && forall i | 0 <= i <= |s| - |part| :: s[i] != part[0] || s[i + 2] != part[2]
    ensures !Contains(s, part)
  {
    forall i | 0 <= i <= |s| ensures !OccursAt(s, i, part) {
      if i + |part| <= |s| {
        assert s[i..i + |part|][0] == s[i] && s[i..i + |part|][2] == s[i + 2];
      }
    }
  }

  // ---------- amounts ----------

  /** `Math.floor(balanceNgn - fee)` for a balance in kobo. */
  function FirstAmount(balance: int, payoutFee: int): int {
    (balance - 100 * payoutFee) / 100
  }

  /** `Math.ceil(required - available)` in naira, for amounts in kobo. */
  function Deficit(required: int, available: int): int {
    -((available - required) / 100)
  }

  /** What a payout takes out of its account, in kobo. */
  function Cost(amount: nat, fee: nat -> nat): nat {
    100 * amount + fee(amount)
  }

  ghost predicate Nondecreasing(fee: nat -> nat) {
    forall a, b | a <= b :: fee(a) <= fee(b)
  }

  /** The account is worth sweeping: at least the threshold, and at least a naira above the known fee. */
  predicate Sweepable(balance: int, minimum: int, payoutFee: int) {
    balance >= 100 * minimum && balance >= 100 * (payoutFee + 1)
  }

  /**
   Against any fee that does not fall as the amount grows: after one truthful rejection, the amount
   less the deficit is covered by the account, and it is the largest reduction by whole naira that the
   rejection alone justifies.
   */
  lemma RetryFits(amount: nat, fee: nat -> nat, available: nat)
    requires Nondecreasing(fee) && Cost(amount, fee) > available
    requires Deficit(Cost(amount, fee), available) < amount
    ensures var second := amount - Deficit(Cost(amount, fee), available);
            && 0 < second < amount
            && Cost(second, fee) <= available
            && 100 * (second + 1) + fee(amount) > available
  {
    var second := amount - Deficit(Cost(amount, fee), available);
    assert fee(second) <= fee(amount);
  }

  // ---------- the provider's ledger ----------

  datatype Reply =
    | Heard(status: string)
    | Shortfall(available: nat, required: nat, readable: bool)
    | OtherError

  /**
   What happens around one payout request: money that arrives in the account first, whether the
   provider pays if it can, whether its answer is lost, the status it reports, and whether the
   figures of a shortfall can be read out of the message.
   */
  datatype Fate = Fate(deposit: nat, pays: bool, replyLost: bool, status: string, readable: bool) {
    /** The answer is heard and no rejection. */
    predicate Recorded() {
      !replyLost && !SweepRejects(status)
    }

    /** The answer arrives and tells the truth about the money. */
    predicate Honest() {
      pays == Recorded()
    }
  }

  function Sum(balances: seq<nat>): nat {
    if balances == [] then 0 else balances[0] + Sum(balances[1..])
  }

  lemma {:induction false} SumUpdate(balances: seq<nat>, i: nat, b: nat)
    requires i < |balances|
    ensures Sum(balances[i := b]) == Sum(balances) - balances[i] + b
  {
    if i > 0 {
      SumUpdate(balances[1..], i - 1, b);
      assert balances[i := b][1..] == balances[1..][i - 1 := b];
    }
  }

  class Ledger {
    var balances: seq<nat>     // kobo, by virtual account
    var transit: nat           // kobo on its way to the treasury
    var fees: nat              // kobo kept by the provider
    var deposits: nat          // kobo that came in from outside
    var moved: nat             // naira paid out
    var payouts: seq<nat>      // how many payouts each account has made
    const fee: nat -> nat

    ghost predicate Valid()
      reads this
    {
      |payouts| == |balances|
    }

    /** Money that came in is in an account, in transit or with the provider. */
    ghost function Outside(): int
      reads this
    {
      Sum(balances) + transit + fees - deposits
    }

    method CreatePayout(va: nat, amount: nat, fate: Fate) returns (reply: Reply)
      requires Valid() && va < |balances|
      modifies this
      ensures Valid() && Outside() == old(Outside())
      ensures var held := old(balances[va]) + fate.deposit;
              var paid := Cost(amount, fee) <= held && fate.pays;
              && balances == old(balances)[va := if paid then held - Cost(amount, fee) else held]
              && payouts == old(payouts)[va := old(payouts[va]) + if paid then 1 else 0]
              && moved == old(moved) + (if paid then amount else 0)
              && transit == old(transit) + (if paid then 100 * amount else 0)
              && reply == if Cost(amount, fee) > held then Shortfall(held, Cost(amount, fee), fate.readable)
                          else if fate.replyLost then OtherError else Heard(fate.status)
    {
      var held := balances[va] + fate.deposit;
      SumUpdate(balances, va, held);
      balances := balances[va := held];
      deposits := deposits + fate.deposit;
      if Cost(amount, fee) > held {
        assert payouts[va := payouts[va]] == payouts;
        return Shortfall(held, Cost(amount, fee), fate.readable);
      }
      if fate.pays {
        SumUpdate(balances, va, held - Cost(amount, fee));
        balances := balances[va := held - Cost(amount, fee)];
        transit := transit + 100 * amount;
        fees := fees + fee(amount);
        moved := moved + amount;
        payouts := payouts[va := payouts[va] + 1];
      }
      return if fate.replyLost then OtherError else Heard(fate.status);
    }
  }

  // ---------- the sweep ----------

  datatype Account = Account(va: nat, seeded: bool)

  /** How one account's turn ended: the last amount tried, in which attempt, and whether the account was short of it. */
  datatype Turn = Skipped | Tried(amount: nat, attempt: nat, short: bool)

  /** Whether the last request of a turn moved money, and whether the sweep counted it. */
  datatype Mark = Mark(paid: bool, recorded: bool)

  function MarkOf(turn: Turn, fates: nat -> Fate): Mark {
    if turn.Skipped? || turn.short then Mark(false, false)
    else Mark(fates(turn.attempt).pays, fates(turn.attempt).Recorded())
  }

  /** The amounts of the turns with a mark of the given kind. */
  function Total(turns: seq<Turn>, fates: nat -> nat -> Fate, kind: Mark -> bool): nat {
    if turns == [] then 0
    else
      var k := |turns| - 1;
      Total(turns[..k], fates, kind) + if turns[k].Tried? && kind(MarkOf(turns[k], fates(k))) then turns[k].amount else 0
  }

  function Count(turns: seq<Turn>, fates: nat -> nat -> Fate, kind: Mark -> bool): nat {
    if turns == [] then 0
    else
      var k := |turns| - 1;
      Count(turns[..k], fates, kind) + if turns[k].Tried? && kind(MarkOf(turns[k], fates(k))) then 1 else 0
  }

  const PAID: Mark -> bool := (m: Mark) => m.paid
  const RECORDED: Mark -> bool := (m: Mark) => m.recorded
  const UNRECORDED: Mark -> bool := (m: Mark) => m.paid && !m.recorded
  const PHANTOM: Mark -> bool := (m: Mark) => m.recorded && !m.paid

  lemma TotalSnoc(turns: seq<Turn>, turn: Turn, fates: nat -> nat -> Fate, kind: Mark -> bool)
    ensures var counts := turn.Tried? && kind(MarkOf(turn, fates(|turns|)));
      && Total(turns + [turn], fates, kind) == Total(turns, fates, kind) + (if counts then turn.amount else 0)
      && Count(turns + [turn], fates, kind) == Count(turns, fates, kind) + (if counts then 1 else 0)
  {
    assert (turns + [turn])[..|turns|] == turns;
  }

  lemma TotalsOneMore(turns: seq<Turn>, turn: Turn, fates: nat -> nat -> Fate)
    ensures var mark, amount := MarkOf(turn, fates(|turns|)), if turn.Tried? then turn.amount else 0;
      && Total(turns + [turn], fates, PAID) == Total(turns, fates, PAID) + (if mark.paid then amount else 0)
      && Total(turns + [turn], fates, RECORDED) == Total(turns, fates, RECORDED) + (if mark.recorded then amount else 0)
      && Count(turns + [turn], fates, RECORDED)
         == Count(turns, fates, RECORDED) + (if turn.Tried? && mark.recorded then 1 else 0)
  {
    hide Total, Count;
    TotalSnoc(turns, turn, fates, RECORDED);
    TotalSnoc(turns, turn, fates, PAID);
  }

  /**
   What the sweep records and what it moves differ by the payouts it did not hear of and those it was
   wrongly told of; with none of either, account by account, the two are equal.
   */
  lemma {:induction false} TotalsDiffer(turns: seq<Turn>, fates: nat -> nat -> Fate)
    ensures Total(turns, fates, RECORDED) + Total(turns, fates, UNRECORDED)
         == Total(turns, fates, PAID) + Total(turns, fates, PHANTOM)
    ensures (forall k | 0 <= k < |turns| :: turns[k].Tried? && turns[k].amount > 0 && !turns[k].short ==>
               fates(k)(turns[k].attempt).Honest())
      <==> Total(turns, fates, UNRECORDED) == 0 && Total(turns, fates, PHANTOM) == 0
  {
    if turns != [] {
      var k := |turns| - 1;
      TotalsDiffer(turns[..k], fates);
      assert forall i | 0 <= i < k :: turns[..k][i] == turns[i];
    }
  }

  class TreasurySweep {
    var running: bool
    var destinationBankUuid: Option<string>
    const treasury: nat
    const minimum: int
    const payoutFee: nat
    const ledger: Ledger

    constructor (ledger: Ledger, treasury: nat, minimum: int, payoutFee: nat)
      ensures !running && destinationBankUuid == None
      ensures this.ledger == ledger && this.treasury == treasury && this.minimum == minimum && this.payoutFee == payoutFee
    {
      running, destinationBankUuid := false, None;
      this.ledger, this.treasury, this.minimum, this.payoutFee := ledger, treasury, minimum, payoutFee;
    }

    /** `lookup` is the bank the provider's list and validation lead to, if they do. */
    method ResolveDestination(lookup: Option<string>) returns (uuid: Option<string>)
      modifies this`destinationBankUuid
      ensures uuid == if old(destinationBankUuid).Some? then old(destinationBankUuid) else lookup
      ensures destinationBankUuid == uuid
    {
      if destinationBankUuid.None? {
        destinationBankUuid := lookup;
      }
      return destinationBankUuid;
    }

    /**
     One account's turn: at most one payout leaves it, the amounts tried are positive and fall, and
     the retry is never short of funds when the fee does not fall as amounts grow.  The amount
     recorded is the amount moved exactly when the last answer is honest or was a shortfall.
     */
    method SweepAccount(va: nat, balance: nat, fates: nat -> Fate)
        returns (sweptNgn: nat, tried: seq<nat>, short: bool)
      requires ledger.Valid() && va < |ledger.balances| && balance == ledger.balances[va]
      requires Sweepable(balance, minimum, payoutFee)
      modifies ledger
      ensures ledger.Valid() && ledger.Outside() == old(ledger.Outside())
      ensures |ledger.balances| == |old(ledger.balances)|
      ensures forall i | 0 <= i < |ledger.balances| && i != va ::
                ledger.balances[i] == old(ledger.balances[i]) && ledger.payouts[i] == old(ledger.payouts[i])
      ensures 1 <= |tried| <= 2 && tried[0] > 0
      ensures |tried| == 2 ==> 0 < tried[1] < tried[0]
      ensures 100 * (tried[0] + payoutFee) <= balance < 100 * (tried[0] + 1 + payoutFee)
      ensures var held, needed := balance + fates(0).deposit, Cost(tried[0], ledger.fee);
        && (|tried| == 2 <==> needed > held && fates(0).readable && needed - held <= 100 * (tried[0] - 1))
        && (|tried| == 2 ==> 100 * (tried[0] - tried[1] - 1) < needed - held <= 100 * (tried[0] - tried[1]))
        && (|tried| == 1 ==> (short <==> needed > held))
        && (|tried| == 2 ==> (short <==> Cost(tried[1], ledger.fee) > held + fates(1).deposit))
      ensures |tried| == 2 && Nondecreasing(ledger.fee) ==> !short
      ensures var last := |tried| - 1;
              var paid := !short && fates(last).pays;
              && ledger.payouts[va] == old(ledger.payouts[va]) + (if paid then 1 else 0)
              && ledger.moved == old(ledger.moved) + (if paid then tried[last] else 0)
              && sweptNgn == (if !short && fates(last).Recorded() then tried[last] else 0)
              && (sweptNgn == ledger.moved - old(ledger.moved) <==> short || fates(last).Honest())
    {
      sweptNgn, tried, short := 0, [], false;
      var amountNgn: nat := FirstAmount(balance, payoutFee);
      var attempt := 0;
      while attempt < 2 && amountNgn > 0
        invariant 0 <= attempt <= 1 && |tried| == attempt && amountNgn > 0 && sweptNgn == 0 && !short
        invariant ledger.Valid() && |ledger.balances| == |old(ledger.balances)|
        invariant ledger.Outside() == old(ledger.Outside())
        invariant ledger.payouts == old(ledger.payouts) && ledger.moved == old(ledger.moved)
        invariant forall i | 0 <= i < |ledger.balances| && i != va :: ledger.balances[i] == old(ledger.balances[i])
        invariant attempt == 0 ==> amountNgn == FirstAmount(balance, payoutFee)
        invariant attempt == 1 ==> tried[0] == FirstAmount(balance, payoutFee) && amountNgn < tried[0]
        invariant ledger.balances[va] == balance + (if attempt == 0 then 0 else fates(0).deposit)
        invariant attempt == 1 ==> fates(0).readable && Cost(tried[0], ledger.fee) > balance + fates(0).deposit
        invariant attempt == 1 ==> amountNgn == tried[0] - Deficit(Cost(tried[0], ledger.fee), balance + fates(0).deposit)
        invariant attempt == 1 && Nondecreasing(ledger.fee) ==> Cost(amountNgn, ledger.fee) <= ledger.balances[va]
        decreases 2 - attempt
      {
        var reply := ledger.CreatePayout(va, amountNgn, fates(attempt));
        tried := tried + [amountNgn];
        if reply.Heard? {
          if SweepRejects(reply.status) {
            break;
          }
          sweptNgn := sweptNgn + amountNgn;
          break;
        }
        if reply.Shortfall? {
          short := true;
          if reply.readable && attempt == 0 {
            var deficit := Deficit(reply.required, reply.available);
            if deficit > 0 && deficit < amountNgn {
              if Nondecreasing(ledger.fee) {
                RetryFits(amountNgn, ledger.fee, reply.available);
              }
              amountNgn := amountNgn - deficit;
              short := false;
              attempt := attempt + 1;
              continue;
            }
          }
        }
        break;
      }
    }

    /** The turn touches no account but its own, and none at all if it was skipped. */
    ghost predicate Spares(va: nat, turn: Turn, before: seq<nat>, after: seq<nat>) {
      |after| == |before| && forall i | 0 <= i < |before| && (i != va || turn.Skipped?) :: after[i] == before[i]
    }

    /** An account's turn is taken if it is a rider's, its balance can be read, and that is worth a sweep. */
    ghost predicate IsTried(account: Account, legible: bool, balance: nat) {
      && !account.seeded && account.va != treasury && legible
      && balance >= 100 * minimum && balance >= 100 * (payoutFee + 1)
    }

    /** The first amount is the largest whole naira that leaves the known fee; the second one is less. */
    ghost predicate AmountFits(turn: Turn, balance: nat)
      requires turn.Tried?
    {
      && turn.amount > 0 && turn.attempt <= 1
      && 100 * (turn.amount + payoutFee) <= balance
      && (turn.attempt == 0 <==> balance < 100 * (turn.amount + 1 + payoutFee))
    }

    /** What one turn did to the ledger, and what it recorded. */
    ghost predicate TurnTaken(account: Account, legible: bool, turn: Turn, fates: nat -> Fate,
                              balances: seq<nat>, payouts: seq<nat>, moved: nat,
                              balances': seq<nat>, payouts': seq<nat>, moved': nat, sweptNgn: nat) {
      && |balances| == |payouts| && account.va < |balances|
      && Spares(account.va, turn, balances, balances') && Spares(account.va, turn, payouts, payouts')
      && (turn.Tried? <==> IsTried(account, legible, balances[account.va]))
      && (turn.Tried? ==> AmountFits(turn, balances[account.va]))
      && var mark, amount := MarkOf(turn, fates), if turn.Tried? then turn.amount else 0;
         && payouts'[account.va] == payouts[account.va] + (if mark.paid then 1 else 0)
         && moved' == moved + (if mark.paid then amount else 0)
         && sweptNgn == if mark.recorded then amount else 0
    }

    /** One account of the pass: passed over, or swept. */
    method TakeTurn(account: Account, legible: bool, fates: nat -> Fate) returns (sweptNgn: nat, ghost turn: Turn)
      requires ledger.Valid() && account.va < |ledger.balances|
      modifies ledger
      ensures ledger.Valid() && ledger.Outside() == old(ledger.Outside())
      ensures TurnTaken(account, legible, turn, fates, old(ledger.balances), old(ledger.payouts), old(ledger.moved),
                        ledger.balances, ledger.payouts, ledger.moved, sweptNgn)
    {
      sweptNgn, turn := 0, Skipped;
      if account.seeded || account.va == treasury {
        return;
      }
      if !legible {
        return;
      }
      var balance := ledger.balances[account.va];
      if !Sweepable(balance, minimum, payoutFee) {
        return;
      }
      var tried, short;
      sweptNgn, tried, short := SweepAccount(account.va, balance, fates);
      turn := Tried(tried[|tried| - 1], |tried| - 1, short);
    }

    /** Each account is listed once, and exists. */
    ghost predicate Listed(accounts: seq<Account>, size: nat) {
      && (forall k | 0 <= k < |accounts| :: accounts[k].va < size)
      && (forall k, l | 0 <= k < l < |accounts| :: accounts[k].va != accounts[l].va)
    }

    /** Whether a pass may take money out of this account. */
    ghost predicate Eligible(accounts: seq<Account>, va: nat) {
      va != treasury && exists k | 0 <= k < |accounts| :: accounts[k].va == va && !accounts[k].seeded
    }

    /** What the turns so far did to the balances and to the number of payouts, account by account. */
    ghost predicate Passed(accounts: seq<Account>, legible: nat -> bool, turns: seq<Turn>, fates: nat -> nat -> Fate,
                           balances0: seq<nat>, payouts0: seq<nat>, balances: seq<nat>, payouts: seq<nat>) {
      && |turns| <= |accounts| && |balances| == |balances0| == |payouts0| == |payouts|
      && (forall k | 0 <= k < |accounts| :: accounts[k].va < |balances|)
      && (forall i | 0 <= i < |balances| :: payouts0[i] <= payouts[i] <= payouts0[i] + 1)
      && (forall i | 0 <= i < |balances| && !Eligible(accounts, i) ::
            balances[i] == balances0[i] && payouts[i] == payouts0[i])
      && (forall k | |turns| <= k < |accounts| ::
            payouts[accounts[k].va] == payouts0[accounts[k].va] && balances[accounts[k].va] == balances0[accounts[k].va])
      && (forall k | 0 <= k < |turns| ::
            && (turns[k].Tried? <==> IsTried(accounts[k], legible(k), balances0[accounts[k].va]))
            && (turns[k].Tried? ==> AmountFits(turns[k], balances0[accounts[k].va]))
            && payouts[accounts[k].va]
               == payouts0[accounts[k].va] + if MarkOf(turns[k], fates(k)).paid then 1 else 0)
    }

    lemma PassedOneMore(accounts: seq<Account>, legible: nat -> bool, turns: seq<Turn>, fates: nat -> nat -> Fate,
                        balances0: seq<nat>, payouts0: seq<nat>, balances: seq<nat>, payouts: seq<nat>,
                        turn: Turn, moved: nat, balances': seq<nat>, payouts': seq<nat>, moved': nat, swept: nat)
      requires Passed(accounts, legible, turns, fates, balances0, payouts0, balances, payouts) && |turns| < |accounts|
      requires Listed(accounts, |balances0|)
      requires TurnTaken(accounts[|turns|], legible(|turns|), turn, fates(|turns|), balances, payouts, moved, balances', payouts', moved', swept)
      ensures Passed(accounts, legible, turns + [turn], fates, balances0, payouts0, balances', payouts')
    {
      hide MarkOf, AmountFits;
      var k := |turns|;
      assert turn.Tried? ==> Eligible(accounts, accounts[k].va);
      hide Eligible;
      forall l | 0 <= l < k + 1
        ensures var t := (turns + [turn])[l];
          && (t.Tried? <==> IsTried(accounts[l], legible(l), balances0[accounts[l].va]))
          && (t.Tried? ==> AmountFits(t, balances0[accounts[l].va]))
          && payouts'[accounts[l].va] == payouts0[accounts[l].va] + if MarkOf(t, fates(l)).paid then 1 else 0
      {
        if l < k {
          assert (turns + [turn])[l] == turns[l] && accounts[l].va != accounts[k].va;
        }
      }
    }

    /** The turns of all accounts. */
    method SweepAll(accounts: seq<Account>, legible: nat -> bool, fates: nat -> nat -> Fate)
        returns (sweptNgn: nat, sweptCount: nat, ghost turns: seq<Turn>)
      requires ledger.Valid()
      requires Listed(accounts, |ledger.balances|)
      modifies ledger
      ensures ledger.Valid() && ledger.Outside() == old(ledger.Outside()) && |turns| == |accounts|
      ensures Passed(accounts, legible, turns, fates, old(ledger.balances), old(ledger.payouts), ledger.balances, ledger.payouts)
      ensures sweptNgn == Total(turns, fates, RECORDED) && sweptCount == Count(turns, fates, RECORDED)
      ensures ledger.moved == old(ledger.moved) + Total(turns, fates, PAID)
      ensures sweptCount <= |accounts| && (sweptCount == 0 <==> sweptNgn == 0)
    {
      hide SoFar, TurnTaken, Listed, Sum;
      sweptNgn, sweptCount, turns := 0, 0, [];
      ghost var balances0, payouts0, moved0 := ledger.balances, ledger.payouts, ledger.moved;
      Begins(accounts, legible, fates, balances0, payouts0, moved0);
      var n := 0;
      while n < |accounts|
        invariant 0 <= n <= |accounts| && |turns| == n
        invariant ledger.Valid() && ledger.Outside() == old(ledger.Outside())
        invariant SoFar(accounts, legible, turns, fates, balances0, payouts0, moved0,
                        ledger.balances, ledger.payouts, ledger.moved, sweptNgn, sweptCount)
      {
        ghost var balances, payouts, moved := ledger.balances, ledger.payouts, ledger.moved;
        AccountExists(accounts, legible, turns, fates, balances0, payouts0, moved0, balances, payouts, moved, sweptNgn, sweptCount);
        var swept;
        ghost var turn;
        swept, turn := TakeTurn(accounts[n], legible(n), fates(n));
        Advances(accounts, legible, turns, fates, balances0, payouts0, moved0, balances, payouts, moved, sweptNgn, sweptCount,
                 turn, ledger.balances, ledger.payouts, ledger.moved, swept);
        turns := turns + [turn];
        if swept > 0 {
          sweptNgn := sweptNgn + swept;
          sweptCount := sweptCount + 1;
        }
        n := n + 1;
      }
      SoFarMeans(accounts, legible, turns, fates, balances0, payouts0, moved0,
                 ledger.balances, ledger.payouts, ledger.moved, sweptNgn, sweptCount);
    }

    /** The pass after some of its turns. */
    ghost predicate SoFar(accounts: seq<Account>, legible: nat -> bool, turns: seq<Turn>, fates: nat -> nat -> Fate,
                          balances0: seq<nat>, payouts0: seq<nat>, moved0: nat,
                          balances: seq<nat>, payouts: seq<nat>, moved: nat, sweptNgn: nat, sweptCount: nat) {
      && Passed(accounts, legible, turns, fates, balances0, payouts0, balances, payouts)
      && sweptNgn == Total(turns, fates, RECORDED) && sweptCount == Count(turns, fates, RECORDED)
      && moved == moved0 + Total(turns, fates, PAID)
      && sweptCount <= |turns| && (sweptCount == 0 <==> sweptNgn == 0)
    }

    lemma Begins(accounts: seq<Account>, legible: nat -> bool, fates: nat -> nat -> Fate, balances: seq<nat>, payouts: seq<nat>, moved: nat)
      requires |payouts| == |balances| && Listed(accounts, |balances|)
      ensures SoFar(accounts, legible, [], fates, balances, payouts, moved, balances, payouts, moved, 0, 0)
    {
      PassedNothing(accounts, legible, fates, balances, payouts);
      hide Passed;
    }

    lemma Advances(accounts: seq<Account>, legible: nat -> bool, turns: seq<Turn>, fates: nat -> nat -> Fate,
                   balances0: seq<nat>, payouts0: seq<nat>, moved0: nat,
                   balances: seq<nat>, payouts: seq<nat>, moved: nat, sweptNgn: nat, sweptCount: nat,
                   turn: Turn, balances': seq<nat>, payouts': seq<nat>, moved': nat, swept: nat)
      requires SoFar(accounts, legible, turns, fates, balances0, payouts0, moved0, balances, payouts, moved, sweptNgn, sweptCount)
      requires |turns| < |accounts| && Listed(accounts, |balances0|)
      requires TurnTaken(accounts[|turns|], legible(|turns|), turn, fates(|turns|), balances, payouts, moved, balances', payouts', moved', swept)
      ensures SoFar(accounts, legible, turns + [turn], fates, balances0, payouts0, moved0, balances', payouts', moved',
                    sweptNgn + swept, sweptCount + if swept > 0 then 1 else 0)
    {
      hide Passed, Listed, MarkOf, Total, Count, Spares;
      PassedOneMore(accounts, legible, turns, fates, balances0, payouts0, balances, payouts,
                    turn, moved, balances', payouts', moved', swept);
      TotalsOneMore(turns, turn, fates);
    }

    lemma SoFarMeans(accounts: seq<Account>, legible: nat -> bool, turns: seq<Turn>, fates: nat -> nat -> Fate,
                     balances0: seq<nat>, payouts0: seq<nat>, moved0: nat,
                     balances: seq<nat>, payouts: seq<nat>, moved: nat, sweptNgn: nat, sweptCount: nat)
      requires SoFar(accounts, legible, turns, fates, balances0, payouts0, moved0, balances, payouts, moved, sweptNgn, sweptCount)
      ensures Passed(accounts, legible, turns, fates, balances0, payouts0, balances, payouts)
      ensures sweptNgn == Total(turns, fates, RECORDED) && sweptCount == Count(turns, fates, RECORDED)
      ensures moved == moved0 + Total(turns, fates, PAID)
      ensures sweptCount <= |turns| && (sweptCount == 0 <==> sweptNgn == 0)
    {
    }

    lemma PassedNothing(accounts: seq<Account>, legible: nat -> bool, fates: nat -> nat -> Fate, balances: seq<nat>, payouts: seq<nat>)
      requires |payouts| == |balances| && Listed(accounts, |balances|)
      ensures Passed(accounts, legible, [], fates, balances, payouts, balances, payouts)
    {
    }

    lemma AccountExists(accounts: seq<Account>, legible: nat -> bool, turns: seq<Turn>, fates: nat -> nat -> Fate,
                        balances0: seq<nat>, payouts0: seq<nat>, moved0: nat,
                        balances: seq<nat>, payouts: seq<nat>, moved: nat, sweptNgn: nat, sweptCount: nat)
      requires SoFar(accounts, legible, turns, fates, balances0, payouts0, moved0, balances, payouts, moved, sweptNgn, sweptCount)
      requires |turns| < |accounts|
      ensures accounts[|turns|].va < |balances|
    {
    }

    /**
     One pass.  Nothing happens while another pass runs or before the destination is verified; money is
     conserved; each account makes at most one payout; seeded accounts, the treasury and unlisted
     accounts are untouched.  The total recorded is that of the turns whose last answer was heard and no
     rejection, the total moved that of the turns that paid.
     */
    method SweepOnce(accounts: seq<Account>, lookup: Option<string>, legible: nat -> bool, fates: nat -> nat -> Fate)
        returns (sweptNgn: nat, sweptCount: nat, ghost turns: seq<Turn>)
      requires ledger.Valid()
      requires Listed(accounts, |ledger.balances|)
      modifies this`running, this`destinationBankUuid, ledger
      ensures running == old(running)
      ensures ledger.Valid() && ledger.Outside() == old(ledger.Outside())
      ensures |ledger.balances| == |old(ledger.balances)|
      ensures old(running) || destinationBankUuid.None? ==>
                ledger.balances == old(ledger.balances) && ledger.payouts == old(ledger.payouts) && ledger.moved == old(ledger.moved)
      ensures forall i | 0 <= i < |ledger.balances| ::
                old(ledger.payouts[i]) <= ledger.payouts[i] <= old(ledger.payouts[i]) + 1
      ensures forall i | 0 <= i < |ledger.balances| && !Eligible(accounts, i) ::
                ledger.balances[i] == old(ledger.balances[i]) && ledger.payouts[i] == old(ledger.payouts[i])
      ensures |turns| == if old(running) || destinationBankUuid.None? then 0 else |accounts|
      ensures forall k | 0 <= k < |turns| ::
                && (turns[k].Tried? <==>
                      && !accounts[k].seeded && accounts[k].va != treasury && legible(k)
                      && old(ledger.balances)[accounts[k].va] >= 100 * minimum
                      && old(ledger.balances)[accounts[k].va] >= 100 * (payoutFee + 1))
                && (turns[k].Tried? ==> AmountFits(turns[k], old(ledger.balances)[accounts[k].va]))
                && ledger.payouts[accounts[k].va]
                   == old(ledger.payouts[accounts[k].va]) + if MarkOf(turns[k], fates(k)).paid then 1 else 0
      ensures sweptNgn == Total(turns, fates, RECORDED) && sweptCount == Count(turns, fates, RECORDED)
      ensures ledger.moved == old(ledger.moved) + Total(turns, fates, PAID)
      ensures sweptNgn + Total(turns, fates, UNRECORDED)
           == ledger.moved - old(ledger.moved) + Total(turns, fates, PHANTOM)
      ensures sweptCount <= |accounts| && (sweptCount == 0 <==> sweptNgn == 0)
    {
      sweptNgn, sweptCount, turns := 0, 0, [];
      if running {
        return;
      }
      running := true;
      var bankUuid := ResolveDestination(lookup);
      if bankUuid.None? {
        running := false;
        return;
      }
      sweptNgn, sweptCount, turns := SweepAll(accounts, legible, fates);
      TotalsDiffer(turns, fates);
      running := false;
    }
  }
}
