/**
 * The reward store (frontend/src/pages/Store.js): whether the user can
 * afford a reward, what the redeem button says, and what pressing it does.
 */
module Store {
  import opened Common
  import opened ServerState

  /** `user.coins >= reward.coin_cost`. */
  predicate CanAfford(coins: int, reward: Reward) {
    coins >= reward.coinCost
  }

  /** The coins still missing for a reward the user cannot afford. */
  function Shortfall(coins: int, reward: Reward): (n: int)
    requires !CanAfford(coins, reward)
    ensures n > 0
    ensures coins + n == reward.coinCost
  {
    reward.coinCost - coins
  }

  const NotEnoughLabel: string := "Not Enough Coins"
  const RedeemLabel: string := "Redeem Now"

  /** The redeem button: its text and whether it is disabled. */
  datatype RedeemButton = RedeemButton(text: string, disabled: bool)

  function ButtonFor(coins: int, reward: Reward): (b: RedeemButton)
    ensures b.disabled <==> !CanAfford(coins, reward)
    ensures b.text == NotEnoughLabel <==> !CanAfford(coins, reward)
    ensures b.text == RedeemLabel <==> CanAfford(coins, reward)
  {
    var canAfford := CanAfford(coins, reward);
    RedeemButton(if canAfford then RedeemLabel else NotEnoughLabel, !canAfford)
  }

  const Insufficient: string := "Insufficient coins!"

  /** The description under the refusal. */
  function ShortfallText(n: int): string {
    "You need " + IntToString(n) + " more coins"
  }

  /** What a press of the redeem button leads to. */
  datatype RedeemOutcome =
    | Refused(message: string, description: string)   // an error toast; the page stays
    | Proceed(path: string, reward: Reward)            // navigation carrying the reward
    | Crashed(error: string)                           // an exception escapes the handler

  const CheckoutPath: string := "/checkout"

  /** The exception the affordable branch raises: the page never defines `navigate`. */
  const NavigateUndefined: string := "ReferenceError: navigate is not defined"

  /** `handleRedeem` as written: the affordable branch calls a name that is not in scope. */
  function RedeemAsWritten(coins: int, reward: Reward): (o: RedeemOutcome)
    ensures !o.Proceed?
    ensures o.Refused? <==> !CanAfford(coins, reward)
  {
    if !CanAfford(coins, reward) then
      Refused(Insufficient, ShortfallText(Shortfall(coins, reward)))
    else
      Crashed(NavigateUndefined)
  }

  /** A user with 100 coins pressing redeem on a 50-coin reward gets an exception instead of the checkout. */
  lemma AffordableRedeemCrashes()
    ensures CanAfford(100, Reward("notebook", 50))
    ensures RedeemAsWritten(100, Reward("notebook", 50)) == Crashed(NavigateUndefined)
  {
  }

  /** `handleRedeem` with navigation in scope: refuse with the shortfall, or go to checkout with the reward. */
  function Redeem(coins: int, reward: Reward): (o: RedeemOutcome)
    ensures !o.Crashed?
    ensures o.Proceed? <==> CanAfford(coins, reward)
    ensures o.Proceed? ==> o.path == CheckoutPath && o.reward == reward
    ensures o.Refused? ==> o.message == Insufficient && o.description == ShortfallText(Shortfall(coins, reward))
  {
    if !CanAfford(coins, reward) then
      Refused(Insufficient, ShortfallText(Shortfall(coins, reward)))
    else
      Proceed(CheckoutPath, reward)
  }

  /** The two agree on every refusal; they differ only where the written handler crashes. */
  lemma {:induction false} RedeemFixesOnlyTheCrash(coins: int, reward: Reward)
    ensures !CanAfford(coins, reward) ==> Redeem(coins, reward) == RedeemAsWritten(coins, reward)
    ensures CanAfford(coins, reward) ==> RedeemAsWritten(coins, reward).Crashed? && Redeem(coins, reward).Proceed?
  {
  }

  /** A press the page allows (the button is enabled) always reaches the checkout. */
  lemma EnabledButtonProceeds(coins: int, reward: Reward)
    requires !ButtonFor(coins, reward).disabled
    ensures Redeem(coins, reward) == Proceed(CheckoutPath, reward)
  {
  }

  /** The refusal names the exact shortfall, so two refusals for different shortfalls read differently. */
  lemma {:induction false} RefusalNamesTheShortfall(coins: int, reward: Reward, coins2: int, reward2: Reward)
    requires !CanAfford(coins, reward) && !CanAfford(coins2, reward2)
    requires Redeem(coins, reward) == Redeem(coins2, reward2)
    ensures Shortfall(coins, reward) == Shortfall(coins2, reward2)
  {
    var a := IntToString(Shortfall(coins, reward));
    var b := IntToString(Shortfall(coins2, reward2));
    var p := "You need ";
    assert |ShortfallText(Shortfall(coins, reward))| == |ShortfallText(Shortfall(coins2, reward2))|;
    assert |a| == |b|;
    assert a == ShortfallText(Shortfall(coins, reward))[|p|..|p| + |a|];
    assert b == ShortfallText(Shortfall(coins2, reward2))[|p|..|p| + |b|];
    IntToStringInjective(Shortfall(coins, reward), Shortfall(coins2, reward2));
  }
}
