/** The spend form (src/components/SpendingModal.tsx): the ordered checks
    on submit, and what a successful submit does to the form. */
module SpendingModal {
  import opened Types
  import opened JsText

  /** Why a submit is rejected, in the order the checks run. */
  datatype SpendError = InvalidAmount | InsufficientPoints | MissingLabel

  /** The outcome of the checks: the cost to spend, or the first failed check. */
  datatype Verdict = Accepted(cost: int) | Rejected(error: SpendError)

  /** The message the form shows for each rejection. */
  function ErrorMessage(e: SpendError): (m: string)
    ensures m != []
  {
    match e
    case InvalidAmount => "请输入有效的积分数量"
    case InsufficientPoints => "积分不足！继续努力存分吧！"
    case MissingLabel => "请记录购买的物品名称"
  }

  /** The guard chain of `handleSubmit` on the parsed amount (`None` is NaN):
      a missing or non-positive amount first, then a cost above the balance
      (a cost equal to it passes), then an item that is blank once trimmed. */
  function Validate(parsed: Option<int>, item: string, maxPoints: int): (v: Verdict)
    ensures v == Rejected(InvalidAmount) <==> parsed.None? || parsed.value <= 0
    ensures v == Rejected(InsufficientPoints) <==> parsed.Some? && 0 < parsed.value && maxPoints < parsed.value
    ensures v == Rejected(MissingLabel) <==>
      parsed.Some? && 0 < parsed.value <= maxPoints && forall k :: 0 <= k < |item| ==> IsJsWhitespace(item[k])
    ensures v.Accepted? ==> parsed == Some(v.cost) && 0 < v.cost <= maxPoints && Trim(item) != []
  {
    TrimEmptyIff(item);
    if parsed.None? || parsed.value <= 0 then Rejected(InvalidAmount)
    else if parsed.value > maxPoints then Rejected(InsufficientPoints)
    else if Trim(item) == [] then Rejected(MissingLabel)
    else Accepted(parsed.value)
  }

  /** The call a submit makes to the parent: `onSpend(cost, item)`. */
  datatype SpendCall = SpendCall(cost: int, item: string)

  /** The form's `useState` fields. */
  class SpendForm {
    var amount: string
    var item: string
    var error: string

    constructor ()
      ensures amount == "" && item == "" && error == ""
    {
      amount, item, error := "", "", "";
    }

    /** The item field's `onChange`. */
    method SetItem(value: string)
      modifies this
      ensures item == value && amount == old(amount) && error == old(error)
    {
      item := value;
    }

    /** The amount field's `onChange`. */
    method SetAmount(value: string)
      modifies this
      ensures amount == value && item == old(item) && error == old(error)
    {
      amount := value;
    }

    /** `handleSubmit`: a rejection only sets the error message and calls
        nothing; a success calls `onSpend` once with the parsed cost and the
        untrimmed item, clears all three fields and closes the form. */
    method Submit(maxPoints: int) returns (spend: Option<SpendCall>, closed: bool)
      modifies this
      ensures match Validate(ParseInt(old(amount)), old(item), maxPoints)
        case Rejected(e) =>
          && spend == None && !closed
          && amount == old(amount) && item == old(item) && error == ErrorMessage(e)
        case Accepted(cost) =>
          && spend == Some(SpendCall(cost, old(item))) && closed
          && amount == "" && item == "" && error == ""
      ensures spend.Some? ==> 0 < spend.value.cost <= maxPoints && Trim(spend.value.item) != []
    {
      var cost := ParseInt(amount);
      if cost.None? || cost.value <= 0 {
        error := ErrorMessage(InvalidAmount);
        return None, false;
      }
      if cost.value > maxPoints {
        error := ErrorMessage(InsufficientPoints);
        return None, false;
      }
      if Trim(item) == [] {
        error := ErrorMessage(MissingLabel);
        return None, false;
      }
      spend := Some(SpendCall(cost.value, item));
      amount, item, error := "", "", "";
      closed := true;
    }
  }

  // ---------------------------------------------------------------------------
  // Lemmas

  /** Each rejection shows a message of its own. */
  lemma ErrorMessagesDistinct(e1: SpendError, e2: SpendError)
    ensures ErrorMessage(e1) == ErrorMessage(e2) <==> e1 == e2
  {
    if e1 != e2 {
      var m1, m2 := ErrorMessage(e1), ErrorMessage(e2);
      assert m1[0] != m2[0] || m1[1] != m2[1];
    }
  }

  /** The checks run in a fixed order: a bad amount is reported whatever the
      balance and the item, and a too-large cost whatever the item. */
  lemma ChecksInOrder(parsed: Option<int>, item: string, maxPoints: int)
    ensures (parsed.None? || parsed.value <= 0) ==> Validate(parsed, item, maxPoints) == Rejected(InvalidAmount)
    ensures (parsed.Some? && parsed.value > 0 && parsed.value > maxPoints) ==>
      Validate(parsed, item, maxPoints) == Rejected(InsufficientPoints)
  {
  }

  /** The whole balance may be spent; one point more may not. */
  lemma BalanceBoundary(maxPoints: int, item: string)
    requires maxPoints > 0 && Trim(item) != []
    ensures Validate(Some(maxPoints), item, maxPoints) == Accepted(maxPoints)
    ensures Validate(Some(maxPoints + 1), item, maxPoints) == Rejected(InsufficientPoints)
  {
  }

  /** "0" with an empty item reports the amount, not the item. */
  lemma ZeroAmountReportedFirst()
    ensures Validate(ParseInt("0"), "", 10) == Rejected(InvalidAmount)
  {
    ParseIntOfNumerals();
  }

  /** A negative amount and an empty field are invalid amounts. */
  lemma NegativeOrEmptyAmountRejected()
    ensures Validate(ParseInt("-5"), "x", 10) == Rejected(InvalidAmount)
    ensures Validate(ParseInt(""), "x", 10) == Rejected(InvalidAmount)
  {
    ParseIntOfNumerals();
    ParseIntOfEmptyAndTrailing();
  }

  /** One point more than the balance is refused. */
  lemma OverBalanceRejected()
    ensures Validate(ParseInt("11"), "x", 10) == Rejected(InsufficientPoints)
  {
    ParseIntOfTwoDigits();
  }

  /** An item of blanks only is caught last. */
  lemma BlankItemRejected()
    ensures Validate(ParseInt("5"), " \t", 10) == Rejected(MissingLabel)
  {
    ParseIntOfNumerals();
    TrimEmptyIff(" \t");
  }

  /** An accepted item is passed on untrimmed. */
  lemma PaddedItemAccepted()
    ensures Validate(ParseInt("5"), " toy ", 10) == Accepted(5)
  {
    var t := " toy ";
    var parsed := ParseInt("5");
    assert parsed == Some(5) by {
      ParseIntOfNumerals();
    }
    assert Trim(t) != [] by {
      TrimEmptyIff(t);
      assert !IsJsWhitespace(t[1]);
    }
    assert Validate(parsed, t, 10) == Accepted(5);
  }
}
