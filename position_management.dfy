/**
 * The stake/unstake dialog of a market row: the chosen action, the amount
 * typed, the projected position and yield, and when the buttons are enabled.
 */
module PositionManagement {
  import opened Common

  datatype Action = Stake | Unstake

  /** The amount box: empty, or a number as `parseFloat` reads it. */
  datatype AmountInput = EmptyAmount | Amount(x: real)

  /** `parseFloat(amount || '0')`. */
  function AmountOrZero(a: AmountInput): real {
    match a
    case EmptyAmount => 0.0
    case Amount(x) => x
  }

  /** `userPosition?.currentValue || 0`. */
  function CurrentPosition(userPosition: Option<real>): (c: real)
    ensures userPosition.None? ==> c == 0.0
    ensures userPosition.Some? ==> c == userPosition.value
  {
    if userPosition.Some? then userPosition.value else 0.0
  }

  /** Staking adds the amount, unstaking subtracts it; nothing keeps the result above zero. */
  function ProjectedValue(action: Action, current: real, amount: AmountInput): (v: real)
    ensures action == Stake ==> v - current == AmountOrZero(amount)
    ensures action == Unstake ==> current - v == AmountOrZero(amount)
  {
    if action == Stake then current + AmountOrZero(amount) else current - AmountOrZero(amount)
  }

  function ProjectedYield(projectedValue: real, apy: real): (y: real)
    ensures y * 100.0 == projectedValue * apy
  {
    projectedValue * apy / 100.0
  }

  /** An empty amount projects the current position. */
  lemma EmptyAmountProjectsCurrent(action: Action, current: real)
    ensures ProjectedValue(action, current, EmptyAmount) == current
  {
  }

  /** Unstaking more than the position projects a negative position. */
  lemma UnstakeCanGoNegative(current: real, x: real)
    requires x > current
    ensures ProjectedValue(Unstake, current, Amount(x)) < 0.0
  {
  }

  /** Unstaking the maximum projects an empty position and no yield. */
  lemma UnstakeMaxProjectsZero(current: real, apy: real)
    ensures ProjectedValue(Unstake, current, Amount(current)) == 0.0
    ensures ProjectedYield(ProjectedValue(Unstake, current, Amount(current)), apy) == 0.0
  {
  }

  /** The submit button is disabled for an empty or non-positive amount and while a submission runs. */
  predicate SubmitDisabled(amount: AmountInput, isLoading: bool): (r: bool)
    ensures !r <==> AmountOrZero(amount) > 0.0 && !isLoading
  {
    amount.EmptyAmount? || amount.x <= 0.0 || isLoading
  }

  lemma SubmitEnabledIff(amount: AmountInput, isLoading: bool)
    ensures !SubmitDisabled(amount, isLoading) <==> AmountOrZero(amount) > 0.0 && !isLoading
  {
  }

  /** The dialog's state. */
  class PositionModal {
    var action: Action
    var amount: AmountInput
    var isLoading: bool
    /** The position's current value, when the user holds one. */
    const userPosition: Option<real>
    /** How many times the dialog has asked its owner to close it (`onClose`). */
    var closeRequests: nat

    constructor (userPosition: Option<real>)
      ensures action == Stake && amount == EmptyAmount && !isLoading
      ensures this.userPosition == userPosition && closeRequests == 0
    {
      action := Stake;
      amount := EmptyAmount;
      isLoading := false;
      this.userPosition := userPosition;
      closeRequests := 0;
    }

    function Projected(): (v: real)
      reads this
      ensures v == ProjectedValue(action, CurrentPosition(userPosition), amount)
    {
      ProjectedValue(action, CurrentPosition(userPosition), amount)
    }

    method SelectStake()
      modifies this
      ensures action == Stake && amount == old(amount) && isLoading == old(isLoading)
      ensures closeRequests == old(closeRequests)
    {
      action := Stake;
    }

    /** The Unstake button is disabled without a position, so a click then changes nothing. */
    method SelectUnstake()
      modifies this
      ensures userPosition.Some? ==> action == Unstake
      ensures userPosition.None? ==> action == old(action)
      ensures amount == old(amount) && isLoading == old(isLoading) && closeRequests == old(closeRequests)
    {
      if userPosition.Some? {
        action := Unstake;
      }
    }

    method SetAmount(a: AmountInput)
      modifies this
      ensures amount == a && action == old(action) && isLoading == old(isLoading)
      ensures closeRequests == old(closeRequests)
    {
      amount := a;
    }

    /** The Max button appears only when unstaking an existing position, and fills in its value. */
    method Max()
      modifies this
      ensures action == Unstake && userPosition.Some? ==> amount == Amount(userPosition.value) && Projected() == 0.0
      ensures !(action == Unstake && userPosition.Some?) ==> amount == old(amount)
      ensures action == old(action) && isLoading == old(isLoading) && closeRequests == old(closeRequests)
    {
      if action == Unstake && userPosition.Some? {
        amount := Amount(userPosition.value);
      }
    }

    /**
     * Submitting raises the busy flag, lowers it when the simulated transaction
     * ends (the wait runs as one step) and then asks the owner to close the dialog.
     */
    method HandleTransaction()
      requires !SubmitDisabled(amount, isLoading)
      modifies this
      ensures action == old(action) && amount == old(amount) && !isLoading
      ensures closeRequests == old(closeRequests) + 1
    {
      isLoading := true;
      isLoading := false;
      closeRequests := closeRequests + 1;
    }

    /** The Cancel button and the dialog's own close control ask the owner to close it. */
    method Close()
      modifies this
      ensures closeRequests == old(closeRequests) + 1
      ensures action == old(action) && amount == old(amount) && isLoading == old(isLoading)
    {
      closeRequests := closeRequests + 1;
    }
  }
}
