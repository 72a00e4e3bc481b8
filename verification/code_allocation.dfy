/** CODICE_DOC allocation: a persistent counter per printer, explicit codes of imports, leftover directories. */
module CodeAllocation {
  import opened Options
  import opened Decimals

  const MINIMUM_DIGITS: nat := 4
  const MAXIMUM_DIGITS: nat := 32

  predicate ValidJobCode(code: string, width: nat) {
    && MINIMUM_DIGITS <= |code| <= MAXIMUM_DIGITS
    && width <= |code|
    && forall i | 0 <= i < |code| :: IsDigit(code[i])
  }

  // ---------------------------------------------------------------- state of one printer

  datatype Counter = Missing | Corrupt | Next(number: nat)

  /** A capture directory: staging while it has a job id in its name, final without one. */
  datatype Capture = Capture(day: nat, code: string, jobId: Option<string>)

  datatype Storage = Storage(counter: Counter, captures: set<Capture>)

  datatype AllocationError = CorruptCounter | NegativeCounter | InvalidCode | CodeExists

  datatype Result = Code(code: string) | Failed(error: AllocationError)

  function CodesOf(captures: set<Capture>): set<string> {
    set c | c in captures :: c.code
  }

  /** What a single allocation gives: the code, and the number the counter moves on from. */
  datatype Allocation = Allocated(number: nat, code: string) | NoCode(error: AllocationError)

  function NextAllocation(counter: Counter, start: int, width: nat): Allocation {
    if counter.Corrupt? then NoCode(CorruptCounter)
    else
      var current := if counter.Next? then counter.number else start;
      if current < 0 then NoCode(NegativeCounter)
      else if !ValidJobCode(Format(current, width), width) then NoCode(InvalidCode)
      else Allocated(current, Format(current, width))
  }

  /** The used codes the counter can still run into. */
  ghost function Ahead(used: set<string>, number: nat): set<string> {
    set c | c in used && (forall i | 0 <= i < |c| :: IsDigit(c[i])) && Value(c) >= number
  }

  /** Skipping a used code leaves strictly fewer of them ahead. */
  lemma FewerAhead(used: set<string>, number: nat, width: nat)
    requires Format(number, width) in used
    ensures Ahead(used, number + 1) < Ahead(used, number)
  {
    FormatRoundTrip(number, width);
    assert Format(number, width) in Ahead(used, number) && Format(number, width) !in Ahead(used, number + 1);
  }

  /** The first number from number on whose code is unused or invalid. */
  ghost function FirstFree(used: set<string>, number: nat, width: nat): (n: nat)
    ensures number <= n
    ensures ValidJobCode(Format(n, width), width) ==> Format(n, width) !in used
    ensures forall m | number <= m < n :: ValidJobCode(Format(m, width), width) && Format(m, width) in used
    decreases Ahead(used, number)
  {
    if ValidJobCode(Format(number, width), width) && Format(number, width) in used then
      FewerAhead(used, number, width);
      FirstFree(used, number + 1, width)
    else number
  }

  datatype Prepared = Prepared(storage: Storage, result: Result)

  /** Automatic allocation: the next counter value, or the first unused one after it when that is taken. */
  ghost function Unused(s: Storage, start: int, width: nat): Prepared {
    match NextAllocation(s.counter, start, width)
    case NoCode(error) => Prepared(s, Failed(error))
    case Allocated(number, _) =>
      var n := FirstFree(CodesOf(s.captures), number, width);
      if ValidJobCode(Format(n, width), width) then Prepared(s.(counter := Next(n + 1)), Code(Format(n, width)))
      else Prepared(s.(counter := Next(n)), Failed(InvalidCode))
  }

  /** Reserves a code and creates its staging directory. */
  ghost function Prepare(s: Storage, start: int, width: nat, day: nat, jobId: string, jobCode: Option<string>): Prepared {
    var p :=
      if jobCode.None? then Unused(s, start, width)
      else if !ValidJobCode(jobCode.value, width) then Prepared(s, Failed(InvalidCode))
      else if jobCode.value in CodesOf(s.captures) then Prepared(s, Failed(CodeExists))
      else Prepared(s, Code(jobCode.value));
    if p.result.Failed? then p
    else p.(storage := p.storage.(captures := s.captures + {Capture(day, p.result.code, Some(jobId))}))
  }

  lemma UnusedIsFree(s: Storage, start: int, width: nat)
    ensures var p := Unused(s, start, width);
            && p.storage.captures == s.captures
            && (p.result.Code? ==> ValidJobCode(p.result.code, width) && p.result.code !in CodesOf(s.captures))
  {
    hide Format;
  }

  /** The printer's spool state as the allocator and the capture preparation update it. All calls run under the
      printer's allocation lock. */
  class RawSpoolStorage {
    const start: int
    const width: nat
    var counter: Counter
    var captures: set<Capture>

    ghost function View(): Storage
      reads this
    {
      Storage(counter, captures)
    }

    constructor (start: int, width: nat, counter: Counter, captures: set<Capture>)
      ensures View() == Storage(counter, captures) && this.start == start && this.width == width
    {
      this.start, this.width, this.counter, this.captures := start, width, counter, captures;
    }

    method Allocate() returns (r: Result)
      modifies this`counter
      ensures match old(NextAllocation(counter, start, width))
              case Allocated(number, code) => r == Code(code) && counter == Next(number + 1)
              case NoCode(error) => r == Failed(error) && counter == old(counter)
    {
      if counter.Corrupt? {
        return Failed(CorruptCounter);
      }
      var current := if counter.Next? then counter.number else start;
      if current < 0 {
        return Failed(NegativeCounter);
      }
      var code := Format(current, width);
      if !ValidJobCode(code, width) {
        return Failed(InvalidCode);
      }
      counter := Next(current + 1);
      return Code(code);
    }

    method CodeInUse(code: string) returns (used: bool)
      ensures used <==> code in CodesOf(captures)
    {
      used := exists c | c in captures :: c.code == code;
    }

    /** The scan of used codes is taken once; the loop ends because every allocation moves past one of them. */
    method AllocateUnused() returns (r: Result)
      modifies this`counter
      ensures Prepared(View(), r) == old(Unused(View(), start, width))
    {
      hide Format, Value, Ahead, ValidJobCode;
      r := Allocate();
      if r.Failed? {
        return;
      }
      var inUse := CodeInUse(r.code);
      if inUse {
        var usedCodes := CodesOf(captures);
        ghost var first := counter.number - 1;
        while r.Code? && r.code in usedCodes
          invariant counter.Next? && counter.number > first
          invariant r.Code? ==> ValidJobCode(r.code, width) && r.code == Format(counter.number - 1, width)
          invariant r.Code? ==> FirstFree(usedCodes, first, width) == FirstFree(usedCodes, counter.number - 1, width)
          invariant r.Failed? ==> r.error == InvalidCode && FirstFree(usedCodes, first, width) == counter.number
          invariant r.Failed? ==> !ValidJobCode(Format(counter.number, width), width)
          decreases r.Code?, if r.Code? then Ahead(usedCodes, counter.number - 1) else {}
        {
          FewerAhead(usedCodes, counter.number - 1, width);
          r := Allocate();
        }
      }
    }

    method PrepareCapture(day: nat, jobId: string, jobCode: Option<string>) returns (r: Result)
      modifies this
      ensures Prepared(View(), r) == old(Prepare(View(), start, width, day, jobId, jobCode))
    {
      hide Format, FirstFree, ValidJobCode;
      ghost var before := View();
      if jobCode.Some? {
        if !ValidJobCode(jobCode.value, width) {
          return Failed(InvalidCode);
        }
        var used := CodeInUse(jobCode.value);
        if used {
          return Failed(CodeExists);
        }
        r := Code(jobCode.value);
      } else {
        r := AllocateUnused();
        if r.Failed? {
          return;
        }
      }
      UnusedIsFree(before, start, width);
      if Capture(day, r.code, None) in captures || Capture(day, r.code, Some(jobId)) in captures {
        return Failed(CodeExists);
      }
      captures := captures + {Capture(day, r.code, Some(jobId))};
    }
  }

  // ---------------------------------------------------------------- whole histories of a printer's spool

  datatype Step =
    /** A capture, automatic or with the explicit code of an import. */
    | PrepareStep(day: nat, jobId: string, jobCode: Option<string>)
    /** The counter file is lost, restored from a backup, damaged, or was advanced by a preparation that stopped
        before it created its directory. */
    | CounterStep(counter: Counter)
    /** Publication renames a staging directory to its code. */
    | PublishStep(capture: Capture)
    | RemoveStep(capture: Capture)

  predicate Enabled(s: Storage, step: Step) {
    match step
    case PublishStep(c) => c in s.captures && c.jobId.Some? && c.(jobId := None) !in s.captures
    case _ => true
  }

  ghost function Apply(s: Storage, start: int, width: nat, step: Step): Storage {
    match step
    case PrepareStep(day, jobId, jobCode) => Prepare(s, start, width, day, jobId, jobCode).storage
    case CounterStep(counter) => s.(counter := counter)
    case PublishStep(c) => s.(captures := s.captures - {c} + {c.(jobId := None)})
    case RemoveStep(c) => s.(captures := s.captures - {c})
  }

  predicate UniqueCodes(captures: set<Capture>) {
    forall c, d | c in captures && d in captures :: c.code == d.code ==> c == d
  }

  lemma StepKeepsUnique(s: Storage, start: int, width: nat, step: Step)
    requires UniqueCodes(s.captures) && Enabled(s, step)
    ensures UniqueCodes(Apply(s, start, width, step).captures)
  {
    hide Unused, ValidJobCode;
    if step.PrepareStep? {
      UnusedIsFree(s, start, width);
      var p := Prepare(s, start, width, step.day, step.jobId, step.jobCode);
      if p.result.Code? {
        assert forall c | c in s.captures :: c.code in CodesOf(s.captures);
      }
    }
  }

  /** No two capture directories of a printer, staging or final, ever come to share a code. */
  lemma {:induction false} CodesStayUnique(states: seq<Storage>, start: int, width: nat, steps: seq<Step>, i: nat)
    requires |states| == |steps| + 1 && i < |states| && UniqueCodes(states[0].captures)
    requires forall k | 0 <= k < |steps| ::
               Enabled(states[k], steps[k]) && states[k + 1] == Apply(states[k], start, width, steps[k])
    ensures forall c, d | c in states[i].captures && d in states[i].captures && c.code == d.code :: c == d
  {
    hide Apply, Enabled;
    if i > 0 {
      CodesStayUnique(states, start, width, steps, i - 1);
      assert UniqueCodes(states[i - 1].captures);
      StepKeepsUnique(states[i - 1], start, width, steps[i - 1]);
    }
  }

  /** Where the counter stands: at its number, or at the configured start while there is no counter file. */
  predicate StandsAt(counter: Counter, start: int, number: int) {
    match counter
    case Missing => number == start
    case Corrupt => false
    case Next(n) => number == n
  }

  /** From a usable counter an automatic capture gets the smallest unused code not below it, and the counter moves just
      past it; it fails only if every number up to the last printable one is used. */
  lemma AutomaticCodeIsFirstFree(s: Storage, start: int, width: nat, number: nat)
    requires StandsAt(s.counter, start, number) && ValidJobCode(Format(number, width), width)
    ensures var p := Unused(s, start, width);
            match p.result
            case Code(code) =>
              && number <= Value(code) && code == Format(Value(code), width)
              && p.storage.counter == Next(Value(code) + 1)
              && code !in CodesOf(s.captures)
              && (forall m | number <= m < Value(code) :: Format(m, width) in CodesOf(s.captures))
            case Failed(_) =>
              && p.storage.counter.Next?
              && !ValidJobCode(Format(p.storage.counter.number, width), width)
              && (forall m | number <= m < p.storage.counter.number :: Format(m, width) in CodesOf(s.captures))
  {
    hide Format, Value, ValidJobCode;
    FormatRoundTrip(FirstFree(CodesOf(s.captures), number, width), width);
  }

  /** From any other counter it fails and changes nothing. */
  lemma UnusableCounterFails(s: Storage, start: int, width: nat)
    requires forall number: nat :: StandsAt(s.counter, start, number) ==> !ValidJobCode(Format(number, width), width)
    ensures var p := Unused(s, start, width); p.result.Failed? && p.storage == s
    ensures s.counter.Corrupt? <==> Unused(s, start, width).result == Failed(CorruptCounter)
    ensures s.counter.Missing? && start < 0 <==> Unused(s, start, width).result == Failed(NegativeCounter)
  {
    hide Format, ValidJobCode;
    if !s.counter.Corrupt? {
      var current := if s.counter.Next? then s.counter.number else start;
      if 0 <= current {
        assert StandsAt(s.counter, start, current);
      }
    }
  }

  /** An imported code is taken exactly if it is a code of this printer and unused; then its staging entry is all that
      changes. */
  lemma ExplicitCode(s: Storage, start: int, width: nat, day: nat, jobId: string, code: string)
    ensures var p := Prepare(s, start, width, day, jobId, Some(code));
            var usable := MINIMUM_DIGITS <= |code| <= MAXIMUM_DIGITS && width <= |code|
                          && (forall i | 0 <= i < |code| :: '0' <= code[i] <= '9')
                          && (forall c | c in s.captures :: c.code != code);
            && (usable ==> p.result == Code(code) && p.storage == s.(captures := s.captures + {Capture(day, code, Some(jobId))}))
            && (!usable ==> p.result.Failed? && p.storage == s)
  {
  }
}
