/**
 * The financial step of the valuation form: which of three border styles an
 * amount field gets, when its check icon shows, the set of fields the user
 * has left (touched), and the adjustments radio buttons. Amounts are whole
 * euros; the form's data lives with the caller and is changed through
 * `updateField`, here a field of the form object.
 */
module FinancialForm {
  import Js

  /** The three border styles `getFieldClassName` chooses between. */
  datatype FieldClass = Neutral | Green | Red

  /** The form's fields. */
  datatype Field = Revenue | Ebitda | HasAdjustments | AdjustmentAmount

  /** The part of the company data this step reads and writes; `None` is `undefined` or `null`. */
  datatype FinancialData = FinancialData(
    revenue: Js.Option<int>, ebitda: Js.Option<int>, hasAdjustments: bool, adjustmentAmount: Js.Option<int>)

  /** `isFieldValid`: the value is present and strictly above `minValue`. */
  predicate IsFieldValid(value: Js.Option<int>, minValue: int): (valid: bool)
    ensures valid ==> value.Some? && value.value > minValue
    ensures value.None? ==> !valid
    ensures minValue >= 0 && valid ==> HasValue(value) && value.value > 0
    ensures minValue >= 0 && value.Some? && value.value <= 0 ==> !valid
  {
    value.Some? && value.value > minValue
  }

  /** `Boolean(value)`: present and not 0. */
  predicate HasValue(value: Js.Option<int>)
  {
    value.Some? && value.value != 0
  }

  /** `getFieldClassName` for a field holding `value`. */
  function GetFieldClassName(value: Js.Option<int>, isRequired: bool, minValue: int,
                             isTouched: bool, showValidation: bool): (c: FieldClass)
    ensures c == Green ==> IsFieldValid(value, minValue) && HasValue(value)
    ensures c == Red ==> !IsFieldValid(value, minValue) && isRequired
    ensures c != Neutral ==> isTouched || showValidation
  {
    if !showValidation && !isTouched then Neutral
    else if IsFieldValid(value, minValue) && HasValue(value) && (isTouched || showValidation) then Green
    else if !IsFieldValid(value, minValue) && isRequired && (showValidation || (isTouched && !HasValue(value))) then Red
    else Neutral
  }

  /** `shouldShowCheckIcon` for a field holding `value`. */
  predicate ShouldShowCheckIcon(value: Js.Option<int>, minValue: int, isTouched: bool, showValidation: bool): (icon: bool)
    ensures icon ==> value.Some? && value.value != 0 && value.value > minValue
    ensures !isTouched && !showValidation ==> !icon
    ensures icon <==> GetFieldClassName(value, true, minValue, isTouched, showValidation) == Green
    ensures icon <==> GetFieldClassName(value, false, minValue, isTouched, showValidation) == Green
  {
    IsFieldValid(value, minValue) && HasValue(value) && (isTouched || showValidation)
  }

  /** With a non-negative minimum, a valid value is always a value: 0 and negatives are invalid. */
  lemma ValidMeansPositive(value: Js.Option<int>, minValue: int)
    requires minValue >= 0
    ensures IsFieldValid(value, minValue) ==> HasValue(value) && value.value > 0
    ensures value == Js.Some(0) || (value.Some? && value.value < 0) ==> !IsFieldValid(value, minValue)
  {
  }

  /** Before the field is touched, and without `showValidation`, the style is neutral whatever the value. */
  lemma UntouchedIsNeutral(value: Js.Option<int>, isRequired: bool, minValue: int)
    ensures GetFieldClassName(value, isRequired, minValue, false, false) == Neutral
  {
  }

  /** The check icon shows exactly when the field is green, required or not. */
  lemma CheckIconIffGreen(value: Js.Option<int>, isRequired: bool, minValue: int, isTouched: bool, showValidation: bool)
    ensures ShouldShowCheckIcon(value, minValue, isTouched, showValidation)
        <==> GetFieldClassName(value, isRequired, minValue, isTouched, showValidation) == Green
  {
  }

  /**
   * A field is red exactly when it is invalid, required, and either
   * `showValidation` is on or it was touched and left without a value.
   */
  lemma RedConditions(value: Js.Option<int>, isRequired: bool, minValue: int, isTouched: bool, showValidation: bool)
    ensures GetFieldClassName(value, isRequired, minValue, isTouched, showValidation) == Red
        <==> !IsFieldValid(value, minValue) && isRequired
             && (showValidation || (isTouched && !HasValue(value)))
  {
  }

  /** A field that is not required is never red. */
  lemma OptionalNeverRed(value: Js.Option<int>, minValue: int, isTouched: bool, showValidation: bool)
    ensures GetFieldClassName(value, false, minValue, isTouched, showValidation) != Red
  {
  }

  /**
   * A touched, required field holding a non-zero invalid amount (a negative
   * EBITDA, say) stays neutral until `showValidation` is on.
   */
  lemma TouchedInvalidAmountNeutral(n: int, minValue: int)
    requires n != 0 && n <= minValue
    ensures GetFieldClassName(Js.Some(n), true, minValue, true, false) == Neutral
    ensures GetFieldClassName(Js.Some(n), true, minValue, true, true) == Red
  {
  }

  /** What the number inputs store: `parseFloat(e.target.value) || 0`, with `None` for `NaN`. */
  function EnteredAmount(parsed: Js.Option<int>): (v: Js.Option<int>)
    ensures v.Some?
    ensures parsed.Some? ==> v == parsed
    ensures parsed.None? ==> v == Js.Some(0)
  {
    if parsed.Some? && parsed.value != 0 then parsed else Js.Some(0)
  }

  /** The value an amount field holds; `hasAdjustments` is not an amount. */
  function AmountOf(d: FinancialData, f: Field): Js.Option<int>
    requires f != HasAdjustments
  {
    match f
    case Revenue => d.revenue
    case Ebitda => d.ebitda
    case AdjustmentAmount => d.adjustmentAmount
  }

  /** The data after `updateField(f, value)` on an amount field. */
  function WithAmount(d: FinancialData, f: Field, value: Js.Option<int>): FinancialData
    requires f != HasAdjustments
  {
    match f
    case Revenue => d.(revenue := value)
    case Ebitda => d.(ebitda := value)
    case AdjustmentAmount => d.(adjustmentAmount := value)
  }

  /** Updating one amount field sets that field and leaves the other fields as they were. */
  lemma WithAmountSetsOnlyField(d: FinancialData, f: Field, value: Js.Option<int>)
    requires f != HasAdjustments
    ensures AmountOf(WithAmount(d, f, value), f) == value
    ensures WithAmount(d, f, value).hasAdjustments == d.hasAdjustments
    ensures forall g | g != HasAdjustments && g != f :: AmountOf(WithAmount(d, f, value), g) == AmountOf(d, g)
  {
  }

  /** The minimum each amount field is checked against: the default 0 for all three. */
  const MinValue := 0

  /** The form step, over the caller's data and its own touched set. */
  class Form {
    var data: FinancialData
    var touched: set<Field>
    const showValidation: bool

    constructor(data: FinancialData, showValidation: bool)
      ensures this.data == data && this.showValidation == showValidation
      ensures touched == {}
    {
      this.data := data;
      this.showValidation := showValidation;
      touched := {};
    }

    /** The value an amount field shows. */
    function Amount(f: Field): Js.Option<int>
      requires f != HasAdjustments
      reads this
    {
      AmountOf(data, f)
    }

    /** Revenue and EBITDA are required; the adjustment amount is not. */
    predicate Required(f: Field)
    {
      f != AdjustmentAmount
    }

    /** The style the page gives an amount field. */
    function ClassOf(f: Field): FieldClass
      requires f != HasAdjustments
      reads this
    {
      GetFieldClassName(Amount(f), Required(f), MinValue, f in touched, showValidation)
    }

    /** Whether the page shows an amount field's check icon. */
    predicate ShowsCheck(f: Field)
      requires f != HasAdjustments
      reads this
    {
      ShouldShowCheckIcon(Amount(f), MinValue, f in touched, showValidation)
    }

    /** Whether the page shows "Este campo es obligatorio" under revenue or EBITDA. */
    predicate ShowsRequiredMessage(f: Field)
      requires f == Revenue || f == Ebitda
      reads this
    {
      showValidation && !IsFieldValid(Amount(f), MinValue)
    }

    /** The "required" message under a field goes with a red border. */
    lemma RequiredMessageIsRed(f: Field)
      requires f == Revenue || f == Ebitda
      ensures ShowsRequiredMessage(f) ==> ClassOf(f) == Red
    {
    }

    /** `handleBlur`: the field joins the touched set; nothing else changes. */
    method HandleBlur(f: Field)
      modifies this
      ensures touched == old(touched) + {f}
      ensures touched == TouchedAfter(old(touched), [f])
      ensures data == old(data)
    {
      touched := touched + {f};
    }

    /** `updateField` for an amount field. */
    method UpdateAmount(f: Field, value: Js.Option<int>)
      requires f != HasAdjustments
      modifies this
      ensures data == WithAmount(old(data), f, value)
      ensures touched == old(touched)
    {
      data := WithAmount(data, f, value);
    }

    /** The change handler of an amount input, given what `parseFloat` made of the text. */
    method EnterAmount(f: Field, parsed: Js.Option<int>)
      requires f != HasAdjustments
      modifies this
      ensures data == WithAmount(old(data), f, EnteredAmount(parsed))
      ensures touched == old(touched)
    {
      UpdateAmount(f, EnteredAmount(parsed));
    }

    /** The "No" radio button: no adjustments, the amount reset to 0, and the choice marked touched. */
    method ChooseNoAdjustments()
      modifies this
      ensures data == old(data).(hasAdjustments := false, adjustmentAmount := Js.Some(0))
      ensures touched == old(touched) + {HasAdjustments}
    {
      data := data.(hasAdjustments := false);
      UpdateAmount(AdjustmentAmount, Js.Some(0));
      HandleBlur(HasAdjustments);
    }

    /** The "Yes" radio button: adjustments on, the amount left as it was, and the choice marked touched. */
    method ChooseYesAdjustments()
      modifies this
      ensures data == old(data).(hasAdjustments := true)
      ensures touched == old(touched) + {HasAdjustments}
    {
      data := data.(hasAdjustments := true);
      HandleBlur(HasAdjustments);
    }
  }

  /** The touched set only grows: every field touched before a sequence of blurs is still touched after it. */
  lemma {:induction false} BlursOnlyGrow(touched: set<Field>, blurs: seq<Field>)
    ensures touched <= TouchedAfter(touched, blurs)
    ensures forall k | 0 <= k < |blurs| :: blurs[k] in TouchedAfter(touched, blurs)
    decreases |blurs|
  {
    if blurs != [] {
      BlursOnlyGrow(touched + {blurs[0]}, blurs[1..]);
      forall k | 0 <= k < |blurs|
        ensures blurs[k] in TouchedAfter(touched, blurs)
      {
        if k > 0 {
          assert blurs[k] == blurs[1..][k - 1];
        }
      }
    }
  }

  /** One more blur extends the sequence: `HandleBlur` after `blurs` gives `TouchedAfter(touched, blurs + [f])`. */
  lemma {:induction false} BlurAfterBlurs(touched: set<Field>, blurs: seq<Field>, f: Field)
    ensures TouchedAfter(touched, blurs + [f]) == TouchedAfter(touched, blurs) + {f}
    decreases |blurs|
  {
    if blurs == [] {
      assert blurs + [f] == [f];
    } else {
      assert (blurs + [f])[0] == blurs[0];
      assert (blurs + [f])[1..] == blurs[1..] + [f];
      BlurAfterBlurs(touched + {blurs[0]}, blurs[1..], f);
    }
  }

  /** The touched set after the fields `blurs` are left one after the other. */
  function TouchedAfter(touched: set<Field>, blurs: seq<Field>): set<Field>
    decreases |blurs|
  {
    if blurs == [] then touched else TouchedAfter(touched + {blurs[0]}, blurs[1..])
  }
}
