/** The platform-fee view (src/components/PlatformFeeManagement.tsx): the
    filtered fee list, `formatFeeStructure`, the card's average fee, the
    view's selection and dialog flags with `handleEdit`, the fee-limit line
    of the details dialog, and the create form with its field visibility
    and one-field updates. */
module Fees {
  import opened Optional
  import opened JsText
  import opened Collections
  import opened Display
  import opened Notices

  /** A fee structure; the optional amounts are absent for the types that
      do not use them. */
  datatype Fee = Fee(
    id: string,
    name: string,
    kind: string,
    percentage: Option<real>,
    fixedAmount: Option<real>,
    minimumFee: Option<real>,
    maximumFee: Option<real>,
    applicationType: string,
    targetName: Option<string>,
    status: string,
    totalRevenue: real,
    transactionCount: int)

  /** The name contains the search ignoring case, or there is a target name
      that does. */
  predicate SearchMatches(f: Fee, search: string) {
    IncludesIgnoringCase(f.name, search)
    || (f.targetName.Some? && IncludesIgnoringCase(f.targetName.value, search))
  }

  /** The `filteredFees` predicate: the type dropdown compares the
      application type. */
  predicate FeeMatches(f: Fee, search: string, typeFilter: string, statusFilter: string) {
    SearchMatches(f, search)
    && MatchesFilter(typeFilter, f.applicationType)
    && MatchesFilter(statusFilter, f.status)
  }

  function FilteredFees(fees: seq<Fee>, search: string, typeFilter: string, statusFilter: string): (r: seq<Fee>)
    ensures IsSubsequence(r, fees)
    ensures forall f :: f in r <==> f in fees && FeeMatches(f, search, typeFilter, statusFilter)
  {
    FilterIsSubsequence(fees, (f: Fee) => FeeMatches(f, search, typeFilter, statusFilter));
    Filter(fees, (f: Fee) => FeeMatches(f, search, typeFilter, statusFilter))
  }

  lemma NoCriteriaShowsAllFees(fees: seq<Fee>)
    ensures FilteredFees(fees, "", "all", "all") == fees
  {
    forall f | f in fees ensures FeeMatches(f, "", "all", "all") {
      IncludesEmpty(ToLower(f.name));
    }
    FilterKeepsAll(fees, (f: Fee) => FeeMatches(f, "", "all", "all"));
  }

  lemma FilteredFeesIdempotent(fees: seq<Fee>, search: string, typeFilter: string, statusFilter: string)
    ensures var once := FilteredFees(fees, search, typeFilter, statusFilter);
            FilteredFees(once, search, typeFilter, statusFilter) == once
  {
    FilterIdempotent(fees, (f: Fee) => FeeMatches(f, search, typeFilter, statusFilter));
  }

  /** `getTypeColor` of the application types. */
  function ApplicationTone(applicationType: string): (c: Tone)
    ensures c == Purple <==> applicationType == "global"
    ensures c == Blue <==> applicationType == "cpo"
    ensures c == Green <==> applicationType == "station"
    ensures c == Orange <==> applicationType == "city"
    ensures c == Teal <==> applicationType == "connector"
    ensures c == Gray <==> applicationType !in {"global", "cpo", "station", "city", "connector"}
  {
    match applicationType
    case "global" => Purple
    case "cpo" => Blue
    case "station" => Green
    case "city" => Orange
    case "connector" => Teal
    case _ => Gray
  }

  /** `formatFeeStructure`: a percentage fee with its limits when they are
      truthy, a fixed fee as '₹f flat', and every other type as
      'p% + ₹f'. */
  function FormatFeeStructure(f: Fee): (r: seq<Piece>)
    ensures f.kind == "percentage" ==>
      |r| == 2 + (if NumTruthy(f.minimumFee) then 3 else 0) + (if NumTruthy(f.maximumFee) then 3 else 0)
      && r[..2] == [Show(f.percentage), Str("%")]
      && (Str(" (min ₹") in r <==> NumTruthy(f.minimumFee))
      && (Str(" (max ₹") in r <==> NumTruthy(f.maximumFee))
      && (NumTruthy(f.minimumFee) ==> r[2..5] == [Str(" (min ₹"), Show(f.minimumFee), Str(")")])
      && (NumTruthy(f.maximumFee) ==> r[|r| - 3..] == [Str(" (max ₹"), Show(f.maximumFee), Str(")")])
    ensures f.kind == "fixed" ==> r == [Str("₹"), Show(f.fixedAmount), Str(" flat")]
    ensures f.kind != "percentage" ==> Str(" (min ₹") !in r && Str(" (max ₹") !in r
    ensures f.kind !in {"percentage", "fixed"} ==> r == [Show(f.percentage), Str("% + ₹"), Show(f.fixedAmount)]
  {
    if f.kind == "percentage" then
      [Show(f.percentage), Str("%")]
      + (if NumTruthy(f.minimumFee) then [Str(" (min ₹"), Show(f.minimumFee), Str(")")] else [])
      + (if NumTruthy(f.maximumFee) then [Str(" (max ₹"), Show(f.maximumFee), Str(")")] else [])
    else if f.kind == "fixed" then [Str("₹"), Show(f.fixedAmount), Str(" flat")]
    else [Show(f.percentage), Str("% + ₹"), Show(f.fixedAmount)]
  }

  /** Only a percentage fee's text depends on its limits: a fixed or hybrid
      fee reads the same whatever its minimum and maximum. */
  lemma FormatIgnoresLimitsUnlessPercentage(f: Fee, minimum: Option<real>, maximum: Option<real>)
    requires f.kind != "percentage"
    ensures FormatFeeStructure(f.(minimumFee := minimum, maximumFee := maximum)) == FormatFeeStructure(f)
  {
  }

  /** A percentage fee whose minimum is 0 shows no minimum, exactly as one
      without a minimum. */
  lemma ZeroMinimumIsNotShown(f: Fee)
    requires f.kind == "percentage" && f.minimumFee == Some(0.0)
    ensures FormatFeeStructure(f) == FormatFeeStructure(f.(minimumFee := None))
  {
  }

  /** The 'Avg Fee' of a fee card, guarded against no transactions. */
  function AverageFee(f: Fee): (a: Average)
    ensures a.Quotient? <==> f.transactionCount > 0
    ensures a.Quotient? ==> a.value * (f.transactionCount as real) == f.totalRevenue
  {
    GuardedAverage(f.totalRevenue, f.transactionCount)
  }

  /** `cond && <content>` in markup on an optional number: the content when
      `cond` is truthy; otherwise React renders the falsy value itself,
      which is nothing for `undefined` and the text 0 for the number 0. */
  function JsxAnd(cond: Option<real>, content: seq<Piece>): (r: seq<Piece>)
    ensures NumTruthy(cond) ==> r == content
    ensures cond.None? ==> r == []
    ensures cond == Some(0.0) ==> r == [Num(0.0)]
  {
    if NumTruthy(cond) then content
    else if cond.Some? then [Num(0.0)]
    else []
  }

  /** `a || b` on optional numbers. */
  function NumOr(a: Option<real>, b: Option<real>): (r: Option<real>)
    ensures NumTruthy(r) <==> NumTruthy(a) || NumTruthy(b)
    ensures !NumTruthy(a) ==> r == b
  {
    if NumTruthy(a) then a else b
  }

  /** The 'Fee Limits' block of the details dialog as written:
      `(min || max) && <block>`, inside it `min && 'Min: ₹…'`,
      `min && max && ' • '` and `max && 'Max: ₹…'`. */
  function FeeLimitsAsWritten(minimum: Option<real>, maximum: Option<real>): (r: seq<Piece>)
    ensures !NumTruthy(minimum) && !NumTruthy(maximum) ==> Str("Fee Limits") !in r
  {
    JsxAnd(NumOr(minimum, maximum),
      [Str("Fee Limits")]
      + JsxAnd(minimum, [Str("Min: ₹"), Show(minimum)])
      + JsxAnd(if NumTruthy(minimum) then maximum else minimum, [Str(" • ")])
      + JsxAnd(maximum, [Str("Max: ₹"), Show(maximum)]))
  }

  /** A zero minimum beside a real maximum renders two stray zeros before
      the maximum, and two zero limits render a lone zero. */
  lemma FeeLimitsAsWrittenShowsZeros()
    ensures FeeLimitsAsWritten(Some(0.0), Some(500.0))
            == [Str("Fee Limits"), Num(0.0), Num(0.0), Str("Max: ₹"), Num(500.0)]
    ensures FeeLimitsAsWritten(Some(0.0), Some(0.0)) == [Num(0.0)]
  {
  }

  /** The intended block: present when either limit is set to a non-zero
      amount, each such limit shown once, the separator only between two. */
  function FeeLimits(minimum: Option<real>, maximum: Option<real>): (r: seq<Piece>)
    ensures r != [] <==> NumTruthy(minimum) || NumTruthy(maximum)
    ensures Num(0.0) !in r
    ensures Str("Min: ₹") in r <==> NumTruthy(minimum)
    ensures Str("Max: ₹") in r <==> NumTruthy(maximum)
    ensures Str(" • ") in r <==> NumTruthy(minimum) && NumTruthy(maximum)
  {
    if !NumTruthy(minimum) && !NumTruthy(maximum) then []
    else
      [Str("Fee Limits")]
      + (if NumTruthy(minimum) then [Str("Min: ₹"), Num(minimum.value)] else [])
      + (if NumTruthy(minimum) && NumTruthy(maximum) then [Str(" • ")] else [])
      + (if NumTruthy(maximum) then [Str("Max: ₹"), Num(maximum.value)] else [])
  }

  /** The code as written renders the intended block exactly when the
      maximum is not 0 and the minimum is not a 0 next to a set maximum. */
  lemma FeeLimitsAsWrittenAgreement(minimum: Option<real>, maximum: Option<real>)
    ensures FeeLimitsAsWritten(minimum, maximum) == FeeLimits(minimum, maximum)
            <==> !(maximum == Some(0.0) || (minimum == Some(0.0) && NumTruthy(maximum)))
  {
    var w, c := FeeLimitsAsWritten(minimum, maximum), FeeLimits(minimum, maximum);
    if maximum == Some(0.0) {
      assert Num(0.0) in w;
    } else if minimum == Some(0.0) && NumTruthy(maximum) {
      assert w[1] == Num(0.0);
    }
  }

  /** The view's dialog state: the details dialog and the edit flag share
      one selected fee; the create dialog has its own flag. */
  class FeeView {
    const fees: seq<Fee>
    var selectedFee: Option<Fee>
    var isDetailsOpen: bool
    var isEditOpen: bool
    var isCreateOpen: bool

    ghost predicate Valid()
      reads this
    {
      selectedFee.Some? ==> selectedFee.value in fees
    }

    constructor (data: seq<Fee>)
      ensures fees == data && selectedFee == None
      ensures !isDetailsOpen && !isEditOpen && !isCreateOpen
      ensures Valid()
    {
      fees := data;
      selectedFee := None;
      isDetailsOpen := false;
      isEditOpen := false;
      isCreateOpen := false;
    }

    /** The details dialog is rendered for the selected fee while its flag
        is set. */
    predicate DetailsShown()
      reads this
    {
      selectedFee.Some? && isDetailsOpen
    }

    /** 'View Details'. */
    method ViewDetails(f: Fee)
      requires Valid() && f in fees
      modifies this
      ensures Valid() && selectedFee == Some(f) && isDetailsOpen
      ensures isEditOpen == old(isEditOpen) && isCreateOpen == old(isCreateOpen)
    {
      selectedFee := Some(f);
      isDetailsOpen := true;
    }

    /** `handleEdit`: selects the fee and sets the edit flag; the details
        flag is untouched, so an open details dialog now shows this fee. */
    method HandleEdit(f: Fee)
      requires Valid() && f in fees
      modifies this
      ensures Valid() && selectedFee == Some(f) && isEditOpen
      ensures isDetailsOpen == old(isDetailsOpen) && isCreateOpen == old(isCreateOpen)
      ensures old(DetailsShown()) ==> DetailsShown()
    {
      selectedFee := Some(f);
      isEditOpen := true;
    }

    /** The details dialog's `onOpenChange` and its close callback: the
        selection is kept. */
    method SetDetailsOpen(open: bool)
      requires Valid()
      modifies this
      ensures Valid() && isDetailsOpen == open
      ensures selectedFee == old(selectedFee) && isEditOpen == old(isEditOpen) && isCreateOpen == old(isCreateOpen)
    {
      isDetailsOpen := open;
    }

    /** The create dialog's `onOpenChange`, and the form's `onClose`
        (Cancel and Create both only close it). */
    method SetCreateOpen(open: bool)
      requires Valid()
      modifies this
      ensures Valid() && isCreateOpen == open
      ensures selectedFee == old(selectedFee) && isDetailsOpen == old(isDetailsOpen) && isEditOpen == old(isEditOpen)
    {
      isCreateOpen := open;
    }
  }

  /** The console lines of `handleDuplicate` and `handleDelete`
      (`console.log` joins its two arguments with a space). */
  datatype Command = Duplicate | Delete

  function CommandLog(command: Command, feeId: string): (n: Notice)
    ensures n.ConsoleLog?
  {
    ConsoleLog(
      match command
      case Duplicate => "Duplicating fee structure: " + feeId
      case Delete => "Deleting fee structure: " + feeId)
  }

  lemma CommandLogInjective(c1: Command, id1: string, c2: Command, id2: string)
    requires CommandLog(c1, id1) == CommandLog(c2, id2)
    ensures c1 == c2 && id1 == id2
  {
    var t1, t2 := CommandLog(c1, id1).text, CommandLog(c2, id2).text;
    assert t1[2] == t2[2];
    assert c1 == c2;
    match c1
    case Duplicate => PrefixCancel("Duplicating fee structure: ", id1, id2);
    case Delete => PrefixCancel("Deleting fee structure: ", id1, id2);
  }

  /** The inputs of the create form; every value is the text typed or the
      option chosen. */
  datatype FormField =
    | Name | Kind | Percentage | FixedAmount | MinimumFee | MaximumFee
    | ApplicationType | TargetId | EffectiveDate | ExpiryDate | Description

  datatype FeeForm = FeeForm(
    name: string,
    kind: string,
    percentage: string,
    fixedAmount: string,
    minimumFee: string,
    maximumFee: string,
    applicationType: string,
    targetId: string,
    effectiveDate: string,
    expiryDate: string,
    description: string)

  /** The form's initial data: everything empty, a percentage fee applied
      globally. */
  function InitialForm(): (f: FeeForm)
    ensures f.kind == "percentage" && f.applicationType == "global"
    ensures forall fld :: fld !in {Kind, ApplicationType} ==> Get(f, fld) == ""
  {
    FeeForm("", "percentage", "", "", "", "", "global", "", "", "", "")
  }

  /** The value of one input. */
  function Get(f: FeeForm, field: FormField): string {
    match field
    case Name => f.name
    case Kind => f.kind
    case Percentage => f.percentage
    case FixedAmount => f.fixedAmount
    case MinimumFee => f.minimumFee
    case MaximumFee => f.maximumFee
    case ApplicationType => f.applicationType
    case TargetId => f.targetId
    case EffectiveDate => f.effectiveDate
    case ExpiryDate => f.expiryDate
    case Description => f.description
  }

  /** `setFormData(prev => ({ ...prev, field: value }))`: the named input
      takes the value and every other input keeps its own. */
  function With(f: FeeForm, field: FormField, value: string): (g: FeeForm)
    ensures Get(g, field) == value
    ensures forall other :: other != field ==> Get(g, other) == Get(f, other)
  {
    match field
    case Name => f.(name := value)
    case Kind => f.(kind := value)
    case Percentage => f.(percentage := value)
    case FixedAmount => f.(fixedAmount := value)
    case MinimumFee => f.(minimumFee := value)
    case MaximumFee => f.(maximumFee := value)
    case ApplicationType => f.(applicationType := value)
    case TargetId => f.(targetId := value)
    case EffectiveDate => f.(effectiveDate := value)
    case ExpiryDate => f.(expiryDate := value)
    case Description => f.(description := value)
  }

  /** A form is determined by the values of its inputs. */
  lemma FormExtensionality(f: FeeForm, g: FeeForm)
    requires forall fld :: Get(f, fld) == Get(g, fld)
    ensures f == g
  {
    assert Get(f, Name) == Get(g, Name) && Get(f, Kind) == Get(g, Kind);
    assert Get(f, Percentage) == Get(g, Percentage) && Get(f, FixedAmount) == Get(g, FixedAmount);
    assert Get(f, MinimumFee) == Get(g, MinimumFee) && Get(f, MaximumFee) == Get(g, MaximumFee);
    assert Get(f, ApplicationType) == Get(g, ApplicationType) && Get(f, TargetId) == Get(g, TargetId);
    assert Get(f, EffectiveDate) == Get(g, EffectiveDate) && Get(f, ExpiryDate) == Get(g, ExpiryDate);
    assert Get(f, Description) == Get(g, Description);
  }

  /** Typing into an input what it already holds changes nothing, and
      typing twice into the same input keeps only the second value. */
  lemma WithLaws(f: FeeForm, field: FormField, v: string, w: string)
    ensures With(f, field, Get(f, field)) == f
    ensures With(With(f, field, v), field, w) == With(f, field, w)
  {
    FormExtensionality(With(f, field, Get(f, field)), f);
    FormExtensionality(With(With(f, field, v), field, w), With(f, field, w));
  }

  /** Updates of two different inputs commute. */
  lemma WithCommutes(f: FeeForm, a: FormField, v: string, b: FormField, w: string)
    requires a != b
    ensures With(With(f, a, v), b, w) == With(With(f, b, w), a, v)
  {
    FormExtensionality(With(With(f, a, v), b, w), With(With(f, b, w), a, v));
  }

  /** The inputs the form shows: the percentage, minimum and maximum for a
      percentage or hybrid fee, the fixed amount for a fixed or hybrid fee,
      and the target selector unless the fee applies globally. */
  function VisibleFields(f: FeeForm): (s: set<FormField>)
    ensures forall fld :: fld in {Name, Kind, ApplicationType, EffectiveDate, ExpiryDate, Description} ==> fld in s
    ensures Percentage in s <==> f.kind in {"percentage", "hybrid"}
    ensures MinimumFee in s <==> f.kind in {"percentage", "hybrid"}
    ensures MaximumFee in s <==> f.kind in {"percentage", "hybrid"}
    ensures FixedAmount in s <==> f.kind in {"fixed", "hybrid"}
    ensures TargetId in s <==> f.applicationType != "global"
  {
    {Name, Kind, ApplicationType, EffectiveDate, ExpiryDate, Description}
    + (if f.kind in {"percentage", "hybrid"} then {Percentage, MinimumFee, MaximumFee} else {})
    + (if f.kind in {"fixed", "hybrid"} then {FixedAmount} else {})
    + (if f.applicationType != "global" then {TargetId} else {})
  }

  /** The fresh form shows the percentage inputs, no fixed amount and no
      target; a hybrid fee shows both amount kinds. */
  lemma InitialVisibility()
    ensures Percentage in VisibleFields(InitialForm())
    ensures FixedAmount !in VisibleFields(InitialForm()) && TargetId !in VisibleFields(InitialForm())
    ensures forall f: FeeForm :: f.kind == "hybrid" ==> Percentage in VisibleFields(f) && FixedAmount in VisibleFields(f)
  {
  }

  /** Only the type and the application type decide what is shown: typing
      into any other input leaves the visible inputs as they are. */
  lemma VisibilityDependsOnTwoInputs(f: FeeForm, field: FormField, value: string)
    requires field != Kind && field != ApplicationType
    ensures VisibleFields(With(f, field, value)) == VisibleFields(f)
  {
    var g := With(f, field, value);
    assert g.kind == Get(g, Kind) == Get(f, Kind);
    assert g.applicationType == Get(g, ApplicationType) == Get(f, ApplicationType);
  }

  /** The create form's state. */
  class CreateFeeForm {
    var formData: FeeForm

    constructor ()
      ensures formData == InitialForm()
    {
      formData := InitialForm();
    }

    /** One input's `onChange` or `onValueChange`. */
    method Update(field: FormField, value: string)
      modifies this
      ensures formData == With(old(formData), field, value)
      ensures Get(formData, field) == value
      ensures forall other :: other != field ==> Get(formData, other) == Get(old(formData), other)
    {
      formData := With(formData, field, value);
    }
  }
}
