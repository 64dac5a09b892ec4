/**
 * The `Prior` base class of the inference library's prior module
 * (bilby/core/prior/base.py): construction with its range check, the
 * boundary setter, LaTeX labels with their default table and unit, the
 * inclusive range test, the unit-interval test used before rescaling,
 * and the `Constraint` subclass with its strict indicator probability.
 */
module PriorBase {
  import opened Wrappers

  /** A float bound that is only ever compared: finite, or minus/plus infinity (NaN is not modelled). */
  datatype ExtReal = NegInf | Finite(x: real) | PosInf

  /** Python's `a <= b` on floats that may be infinite. */
  predicate Le(a: ExtReal, b: ExtReal) {
    match (a, b)
    case (NegInf, _) => true
    case (_, PosInf) => true
    case (Finite(x), Finite(y)) => x <= y
    case _ => false
  }

  /** Python's `a < b`, the complement of `b <= a` on a total order. */
  predicate Lt(a: ExtReal, b: ExtReal) {
    !Le(b, a)
  }

  /** `<=` on the extended reals is a total order, as Python's `<=` is on non-NaN floats. */
  lemma LeTotalOrder(a: ExtReal, b: ExtReal, c: ExtReal)
    ensures Le(a, a)
    ensures Le(a, b) || Le(b, a)
    ensures Le(a, b) && Le(b, a) ==> a == b
    ensures Le(a, b) && Le(b, c) ==> Le(a, c)
  {
  }

  /** `a < b` holds exactly when `a <= b` and the two differ. */
  lemma LtStrict(a: ExtReal, b: ExtReal)
    ensures Lt(a, b) <==> Le(a, b) && a != b
  {
    LeTotalOrder(a, b, b);
  }

  /** The errors `Prior` raises, each a `ValueError` in the source. */
  datatype PriorError =
    | RangeError                        // "maximum ... <= minimum ..."
    | BoundaryError(boundary: string)   // "... is not a valid setting for prior boundaries"
    | RescaleError                      // "Number to be rescaled should be in [0, 1]"

  /** Which class an instance belongs to: the base class or its `Constraint` subclass. */
  datatype PriorKind = BasePrior | ConstraintPrior

  /** What `prob` returns: the base class's `np.nan`, or a Constraint's boolean indicator. */
  datatype Probability = NaN | Indicator(inside: bool)

  /** The constructor's rejection test: the range is checked only when asked, and an empty range fails. */
  predicate RangeRejected(checkRangeNonzero: bool, minimum: ExtReal, maximum: ExtReal) {
    checkRangeNonzero && Le(maximum, minimum)
  }

  /** The three settings the boundary setter accepts. */
  predicate BoundaryAccepted(boundary: Option<string>) {
    boundary == None || boundary == Some("periodic") || boundary == Some("reflective")
  }

  /** The label used when none is given: the class's default table entry for `name`, else `name` itself. */
  function DefaultLabel(table: map<string, string>, name: Option<string>): Option<string> {
    if name.Some? && name.value in table then Some(table[name.value]) else name
  }

  /** How `"{}".format(x)` prints an optional string. */
  function Text(s: Option<string>): string {
    if s.Some? then s.value else "None"
  }

  /** `Prior.test_valid_for_rescaling` over the array of values: fails exactly when some value is below 0 or above 1. */
  function TestValidForRescaling(vals: seq<ExtReal>): (r: Outcome<PriorError>)
    ensures r.Fail? <==> exists i :: 0 <= i < |vals| && (Lt(vals[i], Finite(0.0)) || Lt(Finite(1.0), vals[i]))
    ensures r.Fail? ==> r.error == RescaleError
  {
    if vals == [] then Pass
    else if Lt(vals[0], Finite(0.0)) || Lt(Finite(1.0), vals[0]) then Fail(RescaleError)
    else
      var rest := TestValidForRescaling(vals[1..]);
      assert forall i :: 1 <= i < |vals| ==> vals[i] == vals[1..][i - 1];
      rest
  }

  /** The unit interval's own end points pass the rescaling test, and anything beyond them fails. */
  lemma RescalingEndpoints(eps: real)
    requires eps > 0.0
    ensures TestValidForRescaling([Finite(0.0), Finite(1.0)]) == Pass
    ensures TestValidForRescaling([Finite(-eps)]) == Fail(RescaleError)
    ensures TestValidForRescaling([Finite(1.0 + eps)]) == Fail(RescaleError)
    ensures TestValidForRescaling([PosInf]) == Fail(RescaleError)
  {
    assert [Finite(0.0), Finite(1.0)][1..] == [Finite(1.0)];
    assert [Finite(1.0)][1..] == [];
  }

  class Prior {
    const kind: PriorKind
    /** The class attribute `_default_latex_labels`. */
    const defaultLatexLabels: map<string, string>
    var name: Option<string>
    /** The stored label (`__latex_label`), already resolved against the default table. */
    var latexLabel: Option<string>
    var unit: Option<string>
    var minimum: ExtReal
    var maximum: ExtReal
    var checkRangeNonzero: bool
    var leastRecentlySampled: Option<real>
    var boundary: Option<string>
    /** `_is_fixed` */
    var isFixed: bool

    /** The boundary is one of the accepted settings, and a Constraint is always fixed. */
    ghost predicate Valid()
      reads this
    {
      BoundaryAccepted(boundary) && (kind == ConstraintPrior ==> isFixed)
    }

    /**
     * The field assignments of `__init__`, once its two checks have passed; for a
     * Constraint, `Constraint.__init__` then marks the prior fixed.
     */
    constructor Init(kind: PriorKind, defaultLatexLabels: map<string, string>, name: Option<string>,
                     latexLabel: Option<string>, unit: Option<string>, minimum: ExtReal, maximum: ExtReal,
                     checkRangeNonzero: bool, boundary: Option<string>)
      requires !RangeRejected(checkRangeNonzero, minimum, maximum)
      requires BoundaryAccepted(boundary)
      ensures Valid()
      ensures this.kind == kind && this.defaultLatexLabels == defaultLatexLabels
      ensures this.name == name && this.unit == unit
      ensures this.latexLabel == if latexLabel.Some? then latexLabel else DefaultLabel(defaultLatexLabels, name)
      ensures this.minimum == minimum && this.maximum == maximum
      ensures this.checkRangeNonzero == checkRangeNonzero && this.boundary == boundary
      ensures this.leastRecentlySampled == None && this.isFixed == (kind == ConstraintPrior)
    {
      this.kind := kind;
      this.defaultLatexLabels := defaultLatexLabels;
      this.name := name;
      this.latexLabel := if latexLabel.Some? then latexLabel else DefaultLabel(defaultLatexLabels, name);
      this.unit := unit;
      this.minimum := minimum;
      this.maximum := maximum;
      this.checkRangeNonzero := checkRangeNonzero;
      this.leastRecentlySampled := None;
      this.boundary := boundary;
      this.isFixed := kind == ConstraintPrior;
    }

    /**
     * `Prior.__init__`: rejects an empty or inverted range when asked to check it,
     * then rejects a boundary setting other than periodic, reflective or none.
     */
    static method New(defaultLatexLabels: map<string, string>, name: Option<string>,
                      latexLabel: Option<string>, unit: Option<string>, minimum: ExtReal, maximum: ExtReal,
                      checkRangeNonzero: bool, boundary: Option<string>)
      returns (r: Result<Prior, PriorError>)
      ensures r.Err? <==> RangeRejected(checkRangeNonzero, minimum, maximum) || !BoundaryAccepted(boundary)
      ensures r.Err? && RangeRejected(checkRangeNonzero, minimum, maximum) ==> r.error == RangeError
      ensures r.Err? && !RangeRejected(checkRangeNonzero, minimum, maximum) ==> r.error == BoundaryError(boundary.value)
      ensures r.Ok? ==> fresh(r.value) && r.value.Valid() && r.value.kind == BasePrior
      ensures r.Ok? ==> r.value.minimum == minimum && r.value.maximum == maximum && !r.value.isFixed
      ensures r.Ok? ==> r.value.name == name && r.value.unit == unit && r.value.boundary == boundary
      ensures r.Ok? ==> r.value.latexLabel == if latexLabel.Some? then latexLabel else DefaultLabel(defaultLatexLabels, name)
      ensures r.Ok? ==> r.value.checkRangeNonzero == checkRangeNonzero && r.value.leastRecentlySampled == None
      ensures r.Ok? ==> r.value.defaultLatexLabels == defaultLatexLabels
    {
      if RangeRejected(checkRangeNonzero, minimum, maximum) {
        return Err(RangeError);
      }
      if !BoundaryAccepted(boundary) {
        return Err(BoundaryError(boundary.value));
      }
      var p := new Prior.Init(BasePrior, defaultLatexLabels, name, latexLabel, unit, minimum, maximum,
                              checkRangeNonzero, boundary);
      return Ok(p);
    }

    /**
     * `Constraint.__init__`: the base constructor with the range always checked and no
     * boundary, after which the prior is marked fixed.
     */
    static method NewConstraint(defaultLatexLabels: map<string, string>, minimum: ExtReal, maximum: ExtReal,
                                name: Option<string>, latexLabel: Option<string>, unit: Option<string>)
      returns (r: Result<Prior, PriorError>)
      ensures r.Err? <==> Le(maximum, minimum)
      ensures r.Err? ==> r.error == RangeError
      ensures r.Ok? ==> fresh(r.value) && r.value.Valid() && r.value.kind == ConstraintPrior
      ensures r.Ok? ==> r.value.minimum == minimum && r.value.maximum == maximum && r.value.isFixed
      ensures r.Ok? ==> r.value.name == name && r.value.unit == unit && r.value.boundary == None
      ensures r.Ok? ==> r.value.latexLabel == if latexLabel.Some? then latexLabel else DefaultLabel(defaultLatexLabels, name)
      ensures r.Ok? ==> r.value.checkRangeNonzero && r.value.leastRecentlySampled == None
    {
      if Le(maximum, minimum) {
        return Err(RangeError);
      }
      var p := new Prior.Init(ConstraintPrior, defaultLatexLabels, name, latexLabel, unit, minimum, maximum, true, None);
      return Ok(p);
    }

    /** The `boundary` setter: an unknown setting raises before the field is touched. */
    method SetBoundary(b: Option<string>) returns (r: Outcome<PriorError>)
      modifies this`boundary
      ensures r.Pass? <==> BoundaryAccepted(b)
      ensures r.Fail? ==> r.error == BoundaryError(b.value)
      ensures boundary == if BoundaryAccepted(b) then b else old(boundary)
      ensures old(Valid()) ==> Valid()
    {
      if !BoundaryAccepted(b) {
        return Fail(BoundaryError(b.value));
      }
      boundary := b;
      return Pass;
    }

    /** The `latex_label` setter: no label means the default table's entry for `name`, else `name`. */
    method SetLatexLabel(newLabel: Option<string>)
      modifies this`latexLabel
      ensures latexLabel == if newLabel.Some? then newLabel
                            else if name.Some? && name.value in defaultLatexLabels then Some(defaultLatexLabels[name.value])
                            else name
    {
      latexLabel := if newLabel.Some? then newLabel else DefaultLabel(defaultLatexLabels, name);
    }

    /** The `unit` setter. */
    method SetUnit(u: Option<string>)
      modifies this`unit
      ensures unit == u
    {
      unit := u;
    }

    /** The `minimum` setter: stores the value without re-checking the range. */
    method SetMinimum(m: ExtReal)
      modifies this`minimum
      ensures minimum == m
    {
      minimum := m;
    }

    /** The `maximum` setter: stores the value without re-checking the range. */
    method SetMaximum(m: ExtReal)
      modifies this`maximum
      ensures maximum == m
    {
      maximum := m;
    }

    /** `latex_label_with_unit`: "label [unit]" when a unit is set, else the label alone. */
    function LatexLabelWithUnit(): (r: Option<string>)
      reads this
      ensures unit.None? ==> r == latexLabel
      ensures unit.Some? ==> r == Some(Text(latexLabel) + " [" + unit.value + "]")
    {
      if unit.Some? then Some(Text(latexLabel) + " [" + unit.value + "]") else latexLabel
    }

    /** `is_in_prior_range`: inclusive at both ends. */
    function IsInPriorRange(v: ExtReal): (r: bool)
      reads this
      ensures r <==> Le(minimum, v) && Le(v, maximum)
    {
      Le(minimum, v) && Le(v, maximum)
    }

    /** `prob`: the base class returns NaN; a Constraint is the strict indicator of the open range. */
    function Prob(v: ExtReal): (r: Probability)
      reads this
      ensures kind == BasePrior ==> r == NaN
      ensures kind == ConstraintPrior ==> r == Indicator(Lt(minimum, v) && Lt(v, maximum))
    {
      match kind
      case BasePrior => NaN
      case ConstraintPrior => Indicator(Lt(minimum, v) && Lt(v, maximum))
    }
  }

  /**
   * A Constraint's end points are inside the prior range but have indicator
   * probability false, and every point of probability true is in range.
   */
  lemma ConstraintEndpoints(p: Prior, v: ExtReal)
    requires p.kind == ConstraintPrior && Le(p.minimum, p.maximum)
    ensures p.IsInPriorRange(p.minimum) && p.IsInPriorRange(p.maximum)
    ensures p.Prob(p.minimum) == Indicator(false) && p.Prob(p.maximum) == Indicator(false)
    ensures p.Prob(v) == Indicator(true) ==> p.IsInPriorRange(v)
  {
  }

  /** A Constraint's probability is true exactly on the prior range without its two end points. */
  lemma ConstraintInterior(p: Prior, v: ExtReal)
    requires p.kind == ConstraintPrior
    ensures p.Prob(v) == Indicator(p.IsInPriorRange(v) && v != p.minimum && v != p.maximum)
  {
    LtStrict(p.minimum, v);
    LtStrict(v, p.maximum);
  }

  /**
   * With a unit, the label text comes first, then " [", the unit and "]", so both
   * the label text and the unit can be read back; without one the label is unchanged.
   */
  lemma LabelWithUnitParts(p: Prior)
    ensures p.unit.None? ==> p.LatexLabelWithUnit() == p.latexLabel
    ensures p.unit.Some? ==>
              var t := p.LatexLabelWithUnit().value;
              var n := |Text(p.latexLabel)|;
              |t| == n + |p.unit.value| + 3 && t[..n] == Text(p.latexLabel) &&
              t[n..n + 2] == " [" && t[n + 2..|t| - 1] == p.unit.value && t[|t| - 1] == ']'
  {
  }
}
