/**
 * Validation of a traffic rollout request (api/v1/model/rollout.go).
 *
 * A single pass over the rules accumulates a percentage sum, a map of the
 * revisions seen so far and the errors found, each tagged with the rule's
 * position "traffic[idx]"; afterwards the list as a whole must be non-empty
 * and its percentages must add up to exactly 100.
 */
module RolloutValidation {
  import opened Core
  import Decimal

  datatype TrafficRule = TrafficRule(riserRevision: Int64, percent: int)

  datatype RolloutRequest = RolloutRequest(traffic: seq<TrafficRule>)

  /** The prefix an error is merged under: a rule's position, or none for the request itself. */
  datatype Prefix = AtRule(idx: nat) | AtRequest
  {
    /** The prefix text: "traffic[idx]", or "" for the request. */
    function Text(): string
    {
      match this
      case AtRule(idx) => "traffic[" + Decimal.NatToDecimal(idx) + "]"
      case AtRequest => ""
    }
  }

  /** The validated fields, by their JSON names. */
  datatype Field = RiserRevisionField | PercentField | TrafficField
  {
    function Name(): string
    {
      match this
      case RiserRevisionField => "riserRevision"
      case PercentField => "percent"
      case TrafficField => "traffic"
    }
  }

  /** The failures the rules can report. */
  datatype Message =
    | Blank                          // validation.Required
    | BelowZero                      // validation.Min(0)
    | Above100                       // validation.Max(100)
    | SpecifiedTwice(revision: Int64)
    | NoRules
    | SumNot100
  {
    function Text(): string
    {
      match this
      case Blank => "cannot be blank"
      case BelowZero => "must be no less than 0"
      case Above100 => "must be no greater than 100"
      case SpecifiedTwice(revision) =>
        "revision \"" + Decimal.IntToDecimal(revision) + "\" specified twice. You may only specify one rule per revision"
      case NoRules => "must specify one or more traffic rules"
      case SumNot100 => "rule percentages must add up to 100"
    }
  }

  /** One validation failure: where it was merged, which field, and what failed. */
  datatype FieldError = FieldError(prefix: Prefix, field: Field, message: Message)

  /** What TrafficRule.Validate accepts: a present, non-negative revision and a percent in [0, 100]. */
  predicate RuleValid(rule: TrafficRule)
  {
    rule.riserRevision > 0 && 0 <= rule.percent <= 100
  }

  /**
   * TrafficRule.Validate: each field's rules run in order and stop at the
   * first failure, so each field reports at most one message. Required
   * rejects the zero revision; Min and Max bound the percent.
   */
  function RuleErrors(rule: TrafficRule): (errs: seq<(Field, Message)>)
    ensures errs == [] <==> RuleValid(rule)
  {
    var revisionErrs :=
      if rule.riserRevision == 0 then [(RiserRevisionField, Blank)]
      else if rule.riserRevision < 0 then [(RiserRevisionField, BelowZero)]
      else [];
    var percentErrs :=
      if rule.percent < 0 then [(PercentField, BelowZero)]
      else if rule.percent > 100 then [(PercentField, Above100)]
      else [];
    revisionErrs + percentErrs
  }

  /**
   * A rule has no errors exactly when it is valid; each field reports the
   * first of its rules that fails, and only field-level messages occur.
   */
  lemma RuleErrorsSpec(rule: TrafficRule)
    ensures RuleErrors(rule) == [] <==> RuleValid(rule)
    ensures (RiserRevisionField, Blank) in RuleErrors(rule) <==> rule.riserRevision == 0
    ensures (RiserRevisionField, BelowZero) in RuleErrors(rule) <==> rule.riserRevision < 0
    ensures (PercentField, BelowZero) in RuleErrors(rule) <==> rule.percent < 0
    ensures (PercentField, Above100) in RuleErrors(rule) <==> rule.percent > 100
    ensures |RuleErrors(rule)| <= 2
    ensures forall k :: 0 <= k < |RuleErrors(rule)| ==> RuleErrors(rule)[k].1 in {Blank, BelowZero, Above100}
  {
  }

  /** The errors of one rule merged under a prefix. */
  function Tagged(prefix: Prefix, errs: seq<(Field, Message)>): seq<FieldError>
  {
    seq(|errs|, k requires 0 <= k < |errs| => FieldError(prefix, errs[k].0, errs[k].1))
  }

  /** The rule at index i repeats the revision of an earlier rule. */
  predicate SeenBefore(rules: seq<TrafficRule>, i: nat)
    requires i < |rules|
  {
    exists j :: 0 <= j < i && rules[j].riserRevision == rules[i].riserRevision
  }

  predicate DistinctRevisions(rules: seq<TrafficRule>)
  {
    forall i, j :: 0 <= i < j < |rules| ==> rules[i].riserRevision != rules[j].riserRevision
  }

  function DuplicateError(idx: nat, revision: Int64): FieldError
  {
    FieldError(AtRule(idx), RiserRevisionField, SpecifiedTwice(revision))
  }

  /** What the pass over the rules adds for the rule at index i. */
  function StepErrors(rules: seq<TrafficRule>, i: nat): seq<FieldError>
    requires i < |rules|
  {
    (if SeenBefore(rules, i) then [DuplicateError(i, rules[i].riserRevision)] else [])
    + Tagged(AtRule(i), RuleErrors(rules[i]))
  }

  /** The errors accumulated by the first n iterations. */
  function LoopErrors(rules: seq<TrafficRule>, n: nat): seq<FieldError>
    requires n <= |rules|
    decreases n
  {
    if n == 0 then [] else LoopErrors(rules, n - 1) + StepErrors(rules, n - 1)
  }

  /** The sum of all percents, in range or not. */
  function Sum(rules: seq<TrafficRule>): int
    decreases |rules|
  {
    if rules == [] then 0 else Sum(rules[..|rules| - 1]) + rules[|rules| - 1].percent
  }

  /** The revisions of a list of rules. */
  function Revisions(rules: seq<TrafficRule>): set<Int64>
    decreases |rules|
  {
    if rules == [] then {} else Revisions(rules[..|rules| - 1]) + {rules[|rules| - 1].riserRevision}
  }

  /**
   * The request-level rules on the traffic field: Required stops the field's
   * rules on an empty list, so the sum check runs only on a non-empty one.
   */
  function RequestErrors(rules: seq<TrafficRule>, percentage: int): seq<FieldError>
  {
    if |rules| == 0 then [FieldError(AtRequest, TrafficField, NoRules)]
    else if percentage != 100 then [FieldError(AtRequest, TrafficField, SumNot100)]
    else []
  }

  /** Every error RolloutRequest.Validate reports, in the order it merges them. */
  function ValidationErrors(rules: seq<TrafficRule>): seq<FieldError>
  {
    LoopErrors(rules, |rules|) + RequestErrors(rules, Sum(rules))
  }

  /** RolloutRequest.Validate; an empty result stands for a nil error. */
  method Validate(request: RolloutRequest) returns (errs: seq<FieldError>)
    ensures errs == ValidationErrors(request.traffic)
  {
    var rules := request.traffic;
    errs := [];
    var percentage := 0;
    var revisions: map<Int64, bool> := map[];
    var idx := 0;
    while idx < |rules|
      invariant 0 <= idx <= |rules|
      invariant percentage == Sum(rules[..idx])
      invariant revisions.Keys == Revisions(rules[..idx])
      invariant errs == LoopErrors(rules, idx)
    {
      var rule := rules[idx];
      PrefixStep(rules, idx);
      SeenBeforeIff(rules, idx);
      LoopStep(rules, idx);
      ghost var before := errs;
      percentage := percentage + rule.percent;
      if rule.riserRevision in revisions {
        errs := errs + [DuplicateError(idx, rule.riserRevision)];
      }
      ghost var counted := errs;
      assert counted == before + if SeenBefore(rules, idx) then [DuplicateError(idx, rules[idx].riserRevision)] else [];
      revisions := revisions[rule.riserRevision := true];
      var ruleErr := RuleErrors(rule);
      if ruleErr != [] {
        errs := errs + Tagged(AtRule(idx), ruleErr);
      }
      assert errs == counted + Tagged(AtRule(idx), RuleErrors(rules[idx]));
      idx := idx + 1;
    }
    assert rules[..idx] == rules;
    errs := errs + RequestErrors(rules, percentage);
  }

  // ---------------------------------------------------------------------
  // Facts the loop relies on

  /** One more iteration of the pass adds the rule's percent and its revision. */
  lemma PrefixStep(rules: seq<TrafficRule>, idx: nat)
    requires idx < |rules|
    ensures Sum(rules[..idx + 1]) == Sum(rules[..idx]) + rules[idx].percent
    ensures Revisions(rules[..idx + 1]) == Revisions(rules[..idx]) + {rules[idx].riserRevision}
  {
    assert rules[..idx + 1][..idx] == rules[..idx];
  }

  /** The errors of iteration idx, split as the loop appends them. */
  lemma LoopStep(rules: seq<TrafficRule>, idx: nat)
    requires idx < |rules|
    ensures Tagged(AtRule(idx), []) == []
    ensures LoopErrors(rules, idx + 1) ==
      LoopErrors(rules, idx)
      + (if SeenBefore(rules, idx) then [DuplicateError(idx, rules[idx].riserRevision)] else [])
      + Tagged(AtRule(idx), RuleErrors(rules[idx]))
  {
  }

  lemma {:induction false} RevisionsMembership(rules: seq<TrafficRule>, r: Int64)
    ensures r in Revisions(rules) <==> exists j :: 0 <= j < |rules| && rules[j].riserRevision == r
    decreases |rules|
  {
    if rules != [] {
      var init := rules[..|rules| - 1];
      RevisionsMembership(init, r);
      if r in Revisions(init) {
        var j :| 0 <= j < |init| && init[j].riserRevision == r;
        assert rules[j].riserRevision == r;
      }
      if exists j :: 0 <= j < |rules| && rules[j].riserRevision == r {
        var j :| 0 <= j < |rules| && rules[j].riserRevision == r;
        if j < |init| {
          assert init[j].riserRevision == r;
        }
      }
    }
  }

  /** The pass finds a rule's revision among those it has seen exactly when the rule repeats one. */
  lemma SeenBeforeIff(rules: seq<TrafficRule>, idx: nat)
    requires idx < |rules|
    ensures SeenBefore(rules, idx) <==> rules[idx].riserRevision in Revisions(rules[..idx])
  {
    RevisionsMembership(rules[..idx], rules[idx].riserRevision);
    if SeenBefore(rules, idx) {
      var j :| 0 <= j < idx && rules[j].riserRevision == rules[idx].riserRevision;
      assert rules[..idx][j] == rules[j];
    }
  }

  // ---------------------------------------------------------------------
  // Properties of the validation result

  /** Distinct rule positions give distinct prefix texts, so the keys tell the rules apart. */
  lemma PrefixTextInjective(p: Prefix, q: Prefix)
    ensures p.Text() == q.Text() ==> p == q
  {
    if p.Text() == q.Text() && p.AtRule? && q.AtRule? {
      var a, b := Decimal.NatToDecimal(p.idx), Decimal.NatToDecimal(q.idx);
      assert |a| == |b|;
      assert a == p.Text()[8..|p.Text()| - 1];
      assert b == q.Text()[8..|q.Text()| - 1];
      Decimal.NatToDecimalInjective(p.idx, q.idx);
    }
  }

  /** What the pass produced for rule k stays in the accumulated errors. */
  lemma {:induction false} StepErrorsInLoop(rules: seq<TrafficRule>, n: nat, k: nat, e: FieldError)
    requires k < n <= |rules| && e in StepErrors(rules, k)
    ensures e in LoopErrors(rules, n)
    decreases n
  {
    var prev, step := LoopErrors(rules, n - 1), StepErrors(rules, n - 1);
    assert LoopErrors(rules, n) == prev + step;
    if k < n - 1 {
      StepErrorsInLoop(rules, n - 1, k, e);
    }
  }

  /** Every accumulated error came from the iteration of the rule it is positioned at. */
  lemma {:induction false} LoopErrorLocated(rules: seq<TrafficRule>, n: nat, e: FieldError)
    requires n <= |rules| && e in LoopErrors(rules, n)
    ensures e.prefix.AtRule? && e.prefix.idx < n && e in StepErrors(rules, e.prefix.idx)
    decreases n
  {
    var prev, step := LoopErrors(rules, n - 1), StepErrors(rules, n - 1);
    assert LoopErrors(rules, n) == prev + step;
    if e in step {
      StepErrorsPositioned(rules, n - 1, e);
    } else {
      LoopErrorLocated(rules, n - 1, e);
    }
  }

  lemma {:induction false} LoopErrorsEmpty(rules: seq<TrafficRule>, n: nat)
    requires n <= |rules|
    ensures LoopErrors(rules, n) == [] <==> forall i :: 0 <= i < n ==> !SeenBefore(rules, i) && RuleValid(rules[i])
    decreases n
  {
    if n > 0 {
      LoopErrorsEmpty(rules, n - 1);
      if StepErrors(rules, n - 1) == [] {
        assert Tagged(AtRule(n - 1), RuleErrors(rules[n - 1])) == [];
      }
    }
  }

  lemma DistinctIffNoneSeenBefore(rules: seq<TrafficRule>)
    ensures DistinctRevisions(rules) <==> forall i :: 0 <= i < |rules| ==> !SeenBefore(rules, i)
  {
    if !DistinctRevisions(rules) {
      var i, j :| 0 <= i < j < |rules| && rules[i].riserRevision == rules[j].riserRevision;
      assert SeenBefore(rules, j);
    }
  }

  /**
   * A request validates exactly when it has rules, every rule is valid on its
   * own, no revision repeats, and the percents add up to 100.
   */
  lemma NoErrorsIff(rules: seq<TrafficRule>)
    ensures ValidationErrors(rules) == [] <==>
      && |rules| > 0
      && (forall i :: 0 <= i < |rules| ==> RuleValid(rules[i]))
      && DistinctRevisions(rules)
      && Sum(rules) == 100
  {
    LoopErrorsEmpty(rules, |rules|);
    DistinctIffNoneSeenBefore(rules);
  }

  /**
   * The errors merged under the position of rule i are exactly what the pass
   * produced for that rule: its duplicate report, if any, and its own field
   * errors. Nothing else carries that position.
   */
  lemma ErrorsAtPosition(rules: seq<TrafficRule>, i: nat, e: FieldError)
    requires i < |rules|
    ensures e in ValidationErrors(rules) && e.prefix == AtRule(i) <==> e in StepErrors(rules, i)
  {
    var loop, request := LoopErrors(rules, |rules|), RequestErrors(rules, Sum(rules));
    assert ValidationErrors(rules) == loop + request;
    if e in StepErrors(rules, i) {
      StepErrorsPositioned(rules, i, e);
      StepErrorsInLoop(rules, |rules|, i, e);
    }
    if e in loop {
      LoopErrorLocated(rules, |rules|, e);
    }
  }

  lemma StepErrorsPositioned(rules: seq<TrafficRule>, k: nat, e: FieldError)
    requires k < |rules| && e in StepErrors(rules, k)
    ensures e.prefix == AtRule(k)
  {
    var dup := if SeenBefore(rules, k) then [DuplicateError(k, rules[k].riserRevision)] else [];
    var own := Tagged(AtRule(k), RuleErrors(rules[k]));
    assert StepErrors(rules, k) == dup + own;
    if e in own {
      var j :| 0 <= j < |own| && own[j] == e;
    }
  }

  /** Each of a rule's own field errors is reported under that rule's position. */
  lemma RuleErrorsTagged(rules: seq<TrafficRule>, i: nat, field: Field, message: Message)
    requires i < |rules|
    requires (field, message) in RuleErrors(rules[i])
    ensures FieldError(AtRule(i), field, message) in ValidationErrors(rules)
  {
    var errs := RuleErrors(rules[i]);
    var k :| 0 <= k < |errs| && errs[k] == (field, message);
    assert Tagged(AtRule(i), errs)[k] == FieldError(AtRule(i), field, message);
    ErrorsAtPosition(rules, i, FieldError(AtRule(i), field, message));
  }

  /**
   * A repeated revision is reported at every later occurrence and never at its
   * first one: the map of seen revisions is updated after the check.
   */
  lemma DuplicateReportedAtLaterOccurrence(rules: seq<TrafficRule>, i: nat)
    requires i < |rules|
    ensures DuplicateError(i, rules[i].riserRevision) in ValidationErrors(rules) <==> SeenBefore(rules, i)
  {
    var d := DuplicateError(i, rules[i].riserRevision);
    ErrorsAtPosition(rules, i, d);
  }

  /** No error of the pass over the rules is merged under the request's empty prefix. */
  lemma LoopErrorsArePositioned(rules: seq<TrafficRule>, e: FieldError)
    requires e in LoopErrors(rules, |rules|)
    ensures e.prefix.AtRule? && e.prefix.idx < |rules|
  {
    LoopErrorLocated(rules, |rules|, e);
  }

  /**
   * The request-level rules: an empty list reports only that rules are
   * required (never the sum rule); a non-empty list reports the sum rule,
   * last, exactly when its percents do not add up to 100, whatever its
   * rule-level errors.
   */
  lemma RequestLevelErrors(rules: seq<TrafficRule>)
    ensures |rules| == 0 ==> ValidationErrors(rules) == [FieldError(AtRequest, TrafficField, NoRules)]
    ensures FieldError(AtRequest, TrafficField, NoRules) in ValidationErrors(rules) <==> |rules| == 0
    ensures FieldError(AtRequest, TrafficField, SumNot100) in ValidationErrors(rules) <==> |rules| > 0 && Sum(rules) != 100
    ensures |rules| > 0 && Sum(rules) != 100 ==>
      ValidationErrors(rules)[|ValidationErrors(rules)| - 1] == FieldError(AtRequest, TrafficField, SumNot100)
  {
    if FieldError(AtRequest, TrafficField, NoRules) in LoopErrors(rules, |rules|) {
      LoopErrorsArePositioned(rules, FieldError(AtRequest, TrafficField, NoRules));
    }
    if FieldError(AtRequest, TrafficField, SumNot100) in LoopErrors(rules, |rules|) {
      LoopErrorsArePositioned(rules, FieldError(AtRequest, TrafficField, SumNot100));
    }
  }

  /**
   * Errors accumulate: a repeated revision, an out-of-range percent and the
   * sum rule are all reported by one validation.
   */
  lemma ErrorsAccumulate()
    ensures ValidationErrors([TrafficRule(1, 50), TrafficRule(1, 150)]) ==
      [ DuplicateError(1, 1),
        FieldError(AtRule(1), PercentField, Above100),
        FieldError(AtRequest, TrafficField, SumNot100) ]
  {
    var rules := [TrafficRule(1, 50), TrafficRule(1, 150)];
    assert rules[0].riserRevision == rules[1].riserRevision;
    assert SeenBefore(rules, 1);
    assert rules[..1] == [TrafficRule(1, 50)];
    assert RuleErrors(rules[0]) == [] && RuleErrors(rules[1]) == [(PercentField, Above100)];
    assert StepErrors(rules, 0) == [];
    assert Tagged(AtRule(1), RuleErrors(rules[1])) == [FieldError(AtRule(1), PercentField, Above100)];
    assert StepErrors(rules, 1) == [DuplicateError(1, 1), FieldError(AtRule(1), PercentField, Above100)];
    assert LoopErrors(rules, 1) == [];
    assert LoopErrors(rules, 2) == StepErrors(rules, 1);
    assert Sum(rules) == 200;
  }

  /**
   * The sum covers every percent, out-of-range ones included: 150 and -50 add
   * up to 100, so only the two rule-level errors are reported.
   */
  lemma OutOfRangePercentsCount()
    ensures ValidationErrors([TrafficRule(1, 150), TrafficRule(2, -50)]) ==
      [ FieldError(AtRule(0), PercentField, Above100),
        FieldError(AtRule(1), PercentField, BelowZero) ]
  {
    var rules := [TrafficRule(1, 150), TrafficRule(2, -50)];
    assert !SeenBefore(rules, 1);
    assert rules[..1] == [TrafficRule(1, 150)];
    assert Sum(rules) == 100;
  }

  /** The example split of 90/10 over two revisions validates; a zero percent is accepted. */
  lemma ExampleSplitsValidate()
    ensures ValidationErrors([TrafficRule(1, 90), TrafficRule(2, 10)]) == []
    ensures ValidationErrors([TrafficRule(1, 100), TrafficRule(2, 0)]) == []
  {
    var a := [TrafficRule(1, 90), TrafficRule(2, 10)];
    var b := [TrafficRule(1, 100), TrafficRule(2, 0)];
    assert a[..1] == [TrafficRule(1, 90)] && b[..1] == [TrafficRule(1, 100)];
    NoErrorsIff(a);
    NoErrorsIff(b);
  }
}
