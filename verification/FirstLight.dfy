/** The first-light ratchet: what a check accepts, what it hands back, and what that means over whole
    runs of accepted changes. The record file holds a figure and who wrote it. */
module FirstLight {
  import opened Options
  import opened Sequences

  const RED_MS: int := 500
  const YELLOW_MS: int := 400
  const RISE_MS: int := 5

  const YONA: string := "yona"
  const EMULATOR: string := "emulator-model"
  const RATCHET: string := "ci-ratchet"

  datatype Record = Record(ms: int, author: string)

  datatype Verdict = NoCheckFailed | NeedsYona | OverBudget | FigureMove

  datatype Failure = UnblessedRise | OverRed | NoRecord | ReRecord | RoseTooFar | Dropped

  /** What one check reads: the measurement, the change's record, the base branch's record, whether the
      bless label is set and whether the change touches the image. */
  datatype Input = Input(ms: int, record: Option<Record>, base: Option<Record>, blessed: bool, imageChanged: bool)

  // ----- the rules, as conditions -----

  /** The change raises the record above the base. */
  predicate Raises(i: Input) {
    i.record.Some? && i.base.Some? && i.record.value.ms > i.base.value.ms
  }

  /** Such a raise is in order: Yona's record and the label, or a re-record with the image unchanged. */
  predicate Authorised(i: Input) {
    || (i.record.Some? && i.record.value.author == YONA && i.blessed)
    || (i.record.Some? && i.record.value.author == EMULATOR && !i.imageChanged)
  }

  predicate RaisesWithAuthority(i: Input) {
    Raises(i) && Authorised(i)
  }

  predicate Accepts(i: Input) {
    && i.record.Some?
    && (Raises(i) ==> Authorised(i))
    && i.ms <= RED_MS
    && i.record.value.ms <= i.ms <= i.record.value.ms + RISE_MS
  }

  /** The record the check writes when the figure moved, if any. */
  function Rewritten(i: Input): Option<Record> {
    if i.record.None? || i.ms > RED_MS then None
    else if i.ms > i.record.value.ms + RISE_MS then
      (if i.imageChanged then None else Some(Record(i.ms, EMULATOR)))
    else if i.ms < i.record.value.ms then Some(Record(i.ms, RATCHET))
    else None
  }

  // ----- what the rules come to, in figures -----

  /** The record is above the base, and neither Yona's with the label nor an emulator re-record with the
      image unchanged. */
  predicate UnauthorisedRise(i: Input) {
    && i.record.Some? && i.base.Some? && i.record.value.ms > i.base.value.ms
    && !(i.record.value.author == "yona" && i.blessed)
    && !(i.record.value.author == "emulator-model" && !i.imageChanged)
  }

  /** Each verdict has its own condition, and they exclude each other. */
  predicate VerdictFits(i: Input, verdict: Verdict) {
    && (verdict == OverBudget <==> i.ms > 500)
    && (verdict == NeedsYona <==>
          && i.ms <= 500
          && (i.record.None? || UnauthorisedRise(i) || (i.ms > i.record.value.ms + 5 && i.imageChanged)))
    && (verdict == FigureMove <==>
          && i.ms <= 500 && i.record.Some? && !UnauthorisedRise(i)
          && (i.ms < i.record.value.ms || (i.ms > i.record.value.ms + 5 && !i.imageChanged)))
  }

  /** Each failure is reported exactly when its own condition holds, and once; an unauthorised rise comes
      first, a missing record last. */
  predicate FailuresFit(i: Input, failures: seq<Failure>) {
    && (UnblessedRise in failures <==> UnauthorisedRise(i))
    && (OverRed in failures <==> i.ms > 500)
    && (NoRecord in failures <==> i.record.None?)
    && (ReRecord in failures <==> i.ms <= 500 && i.record.Some? && i.ms > i.record.value.ms + 5 && !i.imageChanged)
    && (RoseTooFar in failures <==> i.ms <= 500 && i.record.Some? && i.ms > i.record.value.ms + 5 && i.imageChanged)
    && (Dropped in failures <==> i.ms <= 500 && i.record.Some? && i.ms < i.record.value.ms)
    && Distinct(failures)
    && (UnblessedRise in failures ==> failures[0] == UnblessedRise)
    && (NoRecord in failures ==> failures[|failures| - 1] == NoRecord)
  }

  /** The check passes exactly when the record may stand and the measurement is at or above it, within five
      of it and within the budget. */
  lemma AcceptsIff(i: Input)
    ensures Accepts(i) <==>
              i.record.Some? && !UnauthorisedRise(i) && i.ms <= 500 && i.record.value.ms <= i.ms <= i.record.value.ms + 5
  {
  }

  /** The record is rewritten only within the budget: down to a smaller measurement, by CI, or up to one more
      than five above with the image unchanged, by the emulator. */
  lemma RewrittenIff(i: Input, r: Record)
    ensures Rewritten(i) == Some(r) <==>
              && i.record.Some? && i.ms <= 500 && r.ms == i.ms
              && (|| (i.ms < i.record.value.ms && r.author == "ci-ratchet")
                  || (i.ms > i.record.value.ms + 5 && !i.imageChanged && r.author == "emulator-model"))
  {
  }

  // ----- the check -----

  /** Runs the rules in the tool's order. `tree` is the record file as the check leaves it. */
  method Check(i: Input) returns (code: int, verdict: Verdict, patch: bool, failures: seq<Failure>, warned: bool, tree: Option<Record>)
    ensures code == (if Accepts(i) then 0 else 1)
    ensures (code == 0) <==> failures == []
    ensures (code == 0) <==> verdict == NoCheckFailed
    ensures warned <==> 400 < i.ms <= 500
    ensures patch <==> Rewritten(i).Some? && (Raises(i) ==> Authorised(i))
    ensures tree == if patch then Rewritten(i) else i.record
    ensures VerdictFits(i, verdict)
    ensures FailuresFit(i, failures)
  {
    failures, verdict, patch, warned := [], NoCheckFailed, false, false;
    tree := i.record;
    // 1. May this change raise the record?
    if i.record.Some? && i.base.Some? && i.record.value.ms > i.base.value.ms {
      var author := i.record.value.author;
      if author == YONA && i.blessed {
      } else if author == EMULATOR && !i.imageChanged {
      } else {
        failures, verdict := failures + [UnblessedRise], NeedsYona;
      }
    }
    // 2. The absolute budget.
    if i.ms > RED_MS {
      failures, verdict := failures + [OverRed], OverBudget;
    } else if i.ms > YELLOW_MS {
      warned := true;
    }
    // 3. Against the record.
    if i.record.None? {
      failures := failures + [NoRecord];
      verdict := if verdict == NoCheckFailed then NeedsYona else verdict;
    } else {
      var r := i.record.value.ms;
      if i.ms > RED_MS {
      } else if i.ms > r + RISE_MS {
        if !i.imageChanged {
          tree, patch := Some(Record(i.ms, EMULATOR)), true;
          failures := failures + [ReRecord];
          if verdict == NoCheckFailed { verdict := FigureMove; }
        } else {
          failures := failures + [RoseTooFar];
          if verdict == NoCheckFailed || verdict == FigureMove { verdict := NeedsYona; }
        }
      } else if i.ms < r {
        tree, patch := Some(Record(i.ms, RATCHET)), true;
        failures := failures + [Dropped];
        if verdict == NoCheckFailed { verdict := FigureMove; }
      }
    }
    if verdict == NeedsYona || verdict == OverBudget {
      patch := false;
      if tree != i.record { tree := i.record; }
    }
    code := if failures != [] then 1 else 0;
  }

  // ----- applying a patch -----

  /** The guard run after a patch has been staged: it refuses a rise CI could not have written. */
  method GuardApply(head: Option<Record>, staged: Option<Record>) returns (code: int)
    ensures code == 0 <==> GuardAllows(head, staged)
    ensures code == (if head.Some? && staged.Some? && staged.value.ms > head.value.ms &&
                        staged.value.author != "emulator-model" then 1 else 0)
  {
    if head.None? || staged.None? || staged == head { return 0; }
    if staged.value.ms <= head.value.ms { return 0; }
    if staged.value.author == EMULATOR { return 0; }
    return 1;
  }

  predicate GuardAllows(head: Option<Record>, staged: Option<Record>) {
    head.Some? && staged.Some? && staged.value.ms > head.value.ms ==> staged == head || staged.value.author == EMULATOR
  }

  /** Whatever a check hands back, the guard lets through. */
  lemma HandedBackPatchApplies(i: Input)
    requires Rewritten(i).Some?
    ensures GuardAllows(i.record, Rewritten(i))
  {
  }

  /** Applying the patch settles the check exactly when the rewritten record may stand against the base:
      it is not above it, or it is an emulator re-record. A blessed rise that measures lower is
      ratcheted down to a figure above the base, and then refused. */
  lemma PatchSettlesIff(i: Input)
    requires Rewritten(i).Some?
    ensures Accepts(i.(record := Rewritten(i))) <==>
              i.base.None? || i.ms <= i.base.value.ms || i.ms > i.record.value.ms + 5
  {
  }

  lemma BlessedRiseDoesNotSettle()
    ensures var i := Input(320, Some(Record(340, YONA)), Some(Record(300, RATCHET)), true, true);
            && (Raises(i) ==> Authorised(i)) && Rewritten(i) == Some(Record(320, RATCHET))
            && !Accepts(i.(record := Rewritten(i)))
  {
  }

  // ----- whole runs -----

  /** One change that is merged: its record becomes the base of the next. */
  datatype Change = Change(ms: int, record: Record, blessed: bool, imageChanged: bool)

  function InputOf(base: Record, c: Change): Input {
    Input(c.ms, Some(c.record), Some(base), c.blessed, c.imageChanged)
  }

  predicate AcceptedRun(base: Record, cs: seq<Change>)
    decreases |cs|
  {
    cs == [] || (Accepts(InputOf(base, cs[0])) && AcceptedRun(cs[0].record, cs[1..]))
  }

  /** The record in force before change `k`. */
  function RecordBefore(base: Record, cs: seq<Change>, k: nat): Record
    requires k <= |cs|
  {
    if k == 0 then base else cs[k - 1].record
  }

  /** Milliseconds of authorised raises before change `k`. */
  function AuthorisedRises(base: Record, cs: seq<Change>, k: nat): int
    requires k <= |cs|
  {
    if k == 0 then 0
    else
      var i := InputOf(RecordBefore(base, cs, k - 1), cs[k - 1]);
      AuthorisedRises(base, cs, k - 1) +
      if RaisesWithAuthority(i) then i.record.value.ms - i.base.value.ms else 0
  }

  lemma {:induction false} EachChangeAccepted(base: Record, cs: seq<Change>, k: nat)
    requires AcceptedRun(base, cs) && k < |cs|
    ensures Accepts(InputOf(RecordBefore(base, cs, k), cs[k]))
    decreases k
  {
    if k > 0 { EachChangeAccepted(cs[0].record, cs[1..], k - 1); }
  }

  /** A record never rises without authority, anywhere in the run. */
  lemma {:induction false} RisesOnlyWithAuthority(base: Record, cs: seq<Change>, k: nat)
    requires AcceptedRun(base, cs) && k < |cs| && cs[k].record.ms > RecordBefore(base, cs, k).ms
    ensures || (cs[k].record.author == "yona" && cs[k].blessed)
            || (cs[k].record.author == "emulator-model" && !cs[k].imageChanged)
  {
    EachChangeAccepted(base, cs, k);
  }

  /** The record is at most the starting record plus the authorised raises. */
  lemma {:induction false} RecordIsBounded(base: Record, cs: seq<Change>, k: nat)
    requires AcceptedRun(base, cs) && k <= |cs|
    ensures RecordBefore(base, cs, k).ms <= base.ms + AuthorisedRises(base, cs, k)
  {
    if k > 0 {
      RecordIsBounded(base, cs, k - 1);
      EachChangeAccepted(base, cs, k - 1);
    }
  }

  /** Every accepted measurement is within the budget, at least its record and at most five above, so at
      most five above the starting record plus what was authorised. */
  lemma {:induction false} MeasurementIsBounded(base: Record, cs: seq<Change>, k: nat)
    requires AcceptedRun(base, cs) && k < |cs|
    ensures cs[k].record.ms <= cs[k].ms <= cs[k].record.ms + 5 && cs[k].ms <= 500
    ensures cs[k].ms <= base.ms + AuthorisedRises(base, cs, k + 1) + 5
  {
    EachChangeAccepted(base, cs, k);
    RecordIsBounded(base, cs, k + 1);
  }

  /** Without an authorised raise, nothing accepted exceeds the starting record plus five. */
  lemma {:induction false} NoAuthorityNoDrift(base: Record, cs: seq<Change>, k: nat)
    requires AcceptedRun(base, cs) && k < |cs|
    requires forall j :: 0 <= j < |cs| ==> !RaisesWithAuthority(InputOf(RecordBefore(base, cs, j), cs[j]))
    ensures cs[k].record.ms <= base.ms && cs[k].ms <= base.ms + 5
  {
    MeasurementIsBounded(base, cs, k);
    RecordIsBounded(base, cs, k + 1);
    NoRises(base, cs, k + 1);
  }

  lemma {:induction false} NoRises(base: Record, cs: seq<Change>, k: nat)
    requires k <= |cs|
    requires forall j :: 0 <= j < |cs| ==> !RaisesWithAuthority(InputOf(RecordBefore(base, cs, j), cs[j]))
    ensures AuthorisedRises(base, cs, k) == 0
  {
    if k > 0 { NoRises(base, cs, k - 1); }
  }
}
