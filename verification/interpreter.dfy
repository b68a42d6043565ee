/**
 * The script interpreter: the decoding of 32-bit instruction words into a
 * segment, an opcode and the segment's arguments; six opcode tables, one per
 * segment, from which a decoded instruction is dispatched to its handler; and
 * the call stack of suspended runtimes behind begin and end.
 */
module Interpreter {
  import opened Wrappers

  /** An instruction word (Type_Code): an unsigned 32-bit integer. */
  type Word = w: int | 0 <= w < 0x1_0000_0000

  /** Handlers that take no, one and two arguments (Opcode0, Opcode1, Opcode2); what they do is not modelled. */
  type Opcode0
  type Opcode1
  type Opcode2

  /** One execution frame; its contents are not modelled. */
  type Runtime

  /** A decoded instruction word: the segment, the opcode and the arguments that segment carries. */
  datatype Instruction =
    | Seg0(opcode: int, arg0: int)
    | Seg1(opcode: int, arg0: int, arg1: int)
    | Seg2(opcode: int, arg0: int)
    | Seg3(opcode: int, arg0: int)
    | Seg4(opcode: int, arg0: int, arg1: int)
    | Seg5(opcode: int)
  {
    function Segment(): nat {
      match this
      case Seg0(_, _) => 0
      case Seg1(_, _, _) => 1
      case Seg2(_, _) => 2
      case Seg3(_, _) => 3
      case Seg4(_, _, _) => 4
      case Seg5(_) => 5
    }

    /** The field widths documented for each segment. */
    predicate InRange() {
      match this
      case Seg0(op, a) => 0 <= op < 0x40 && 0 <= a < 0x100_0000
      case Seg1(op, a, b) => 0 <= op < 0x40 && 0 <= a < 0x1000 && 0 <= b < 0x1000
      case Seg2(op, a) => 0 <= op < 0x400 && 0 <= a < 0x10_0000
      case Seg3(op, a) => 0 <= op < 0x4_0000 && 0 <= a < 0x100
      case Seg4(op, a, b) => 0 <= op < 0x400 && 0 <= a < 0x100 && 0 <= b < 0x100
      case Seg5(op) => 0 <= op < 0x400_0000
    }
  }

  /*
   * Segment selection. Segments 0, 1 and 2 carry 30 bits of opcode and
   * arguments, so their selector is the top two bits (0, 1 or 2). Segments 3,
   * 4 and 5 carry 26 bits, so they share the top-two-bit value 3 and are told
   * apart by the top six bits: 0x30, 0x31 and 0x32. The top six bits 0x33 to
   * 0x3f select no segment.
   */

  /** Splits a word into its segment, opcode and arguments, or None when no segment's selector matches. */
  function Decode(w: Word): (r: Option<Instruction>)
    ensures r.Some? ==> r.value.InRange()
    ensures r.None? <==> w >= 0xCC00_0000
    ensures r.Some? && r.value.Segment() < 3 ==> w / 0x4000_0000 == r.value.Segment()
    ensures r.Some? && r.value.Segment() >= 3 ==> w / 0x400_0000 == 0x30 + r.value.Segment() - 3
  {
    var selector := w / 0x4000_0000;
    if selector == 0 then
      Some(Seg0(w / 0x100_0000, w % 0x100_0000))
    else if selector == 1 then
      Some(Seg1((w / 0x100_0000) % 0x40, (w / 0x1000) % 0x1000, w % 0x1000))
    else if selector == 2 then
      Some(Seg2((w / 0x10_0000) % 0x400, w % 0x10_0000))
    else
      var wide := w / 0x400_0000;
      if wide == 0x30 then
        Some(Seg3((w / 0x100) % 0x4_0000, w % 0x100))
      else if wide == 0x31 then
        Some(Seg4((w / 0x1_0000) % 0x400, (w / 0x100) % 0x100, w % 0x100))
      else if wide == 0x32 then
        Some(Seg5(w % 0x400_0000))
      else
        None
  }

  /** Packs an instruction into a word, with the segment's selector in the top bits. */
  function Encode(i: Instruction): (w: Word)
    requires i.InRange()
    ensures Decode(w) == Some(i)
  {
    match i
    case Seg0(op, a) =>
      Split(op, a, 0x100_0000);
      op * 0x100_0000 + a
    case Seg1(op, a, b) =>
      Split(0x40 + op, a * 0x1000 + b, 0x100_0000);
      Split(1, op, 0x40);
      Split(0x4_0000 + op * 0x1000 + a, b, 0x1000);
      Split(0x40 + op, a, 0x1000);
      0x4000_0000 + op * 0x100_0000 + a * 0x1000 + b
    case Seg2(op, a) =>
      Split(0x800 + op, a, 0x10_0000);
      Split(2, op, 0x400);
      0x8000_0000 + op * 0x10_0000 + a
    case Seg3(op, a) =>
      Split(0x30 * 0x4_0000 + op, a, 0x100);
      Split(0x30, op, 0x4_0000);
      0xC000_0000 + op * 0x100 + a
    case Seg4(op, a, b) =>
      Split(0x31 * 0x400 + op, a * 0x100 + b, 0x1_0000);
      Split(0x31, op, 0x400);
      Split(0x31 * 0x4_0000 + op * 0x100 + a, b, 0x100);
      Split(0x31 * 0x400 + op, a, 0x100);
      0xC400_0000 + op * 0x1_0000 + a * 0x100 + b
    case Seg5(op) =>
      Split(0x32, op, 0x400_0000);
      0xC800_0000 + op
  }

  /** Euclidean division by m recovers the quotient and remainder a word was built from. */
  lemma {:induction false} Split(q: int, r: int, m: int)
    requires m > 0 && 0 <= r < m
    ensures (q * m + r) / m == q && (q * m + r) % m == r
  {
    var w := q * m + r;
    var q', r' := w / m, w % m;
    assert (q - q') * m == r' - r;
    if q > q' {
      MultipleAtLeastFactor(q - q', m);
    } else if q < q' {
      MultipleAtLeastFactor(q' - q, m);
    }
  }

  /** A positive multiple of a positive modulus is at least the modulus. */
  lemma MultipleAtLeastFactor(k: int, m: int)
    requires k >= 1 && m > 0
    ensures k * m >= m
  {
    assert k * m == (k - 1) * m + m;
  }

  /** Every word that selects a segment is the encoding of what it decodes to. */
  lemma {:induction false} EncodeDecode(w: Word)
    requires Decode(w).Some?
    ensures Encode(Decode(w).value) == w
  {
    match Decode(w).value
    case Seg0(_, _) =>
    case Seg1(_, _, _) =>
      assert (w / 0x1000) / 0x1000 == w / 0x100_0000;
      assert (w / 0x100_0000) / 0x40 == w / 0x4000_0000;
    case Seg2(_, _) =>
      assert (w / 0x10_0000) / 0x400 == w / 0x4000_0000;
    case Seg3(_, _) =>
      assert (w / 0x100) / 0x4_0000 == w / 0x400_0000;
    case Seg4(_, _, _) =>
      assert (w / 0x100) / 0x100 == w / 0x1_0000;
      assert (w / 0x1_0000) / 0x400 == w / 0x400_0000;
    case Seg5(_) =>
  }

  /** Within the documented widths, distinct instructions have distinct words. */
  lemma EncodeInjective(i: Instruction, j: Instruction)
    requires i.InRange() && j.InRange()
    requires Encode(i) == Encode(j)
    ensures i == j
  {
    assert Some(i) == Decode(Encode(i)) == Decode(Encode(j)) == Some(j);
  }

  /** What executing one word does: call a handler with the decoded arguments, or abort. */
  datatype Outcome =
    | Invoke0(handler0: Opcode0)
    | Invoke1(handler1: Opcode1, arg0: int)
    | Invoke2(handler2: Opcode2, arg0: int, arg1: int)
    | UnknownCode(segment: nat, opcode: int)  // abortUnknownCode
    | UnknownSegment(code: Word)              // abortUnknownSegment

  /** The frames behind begin and end: the current runtime, the suspended ones (top last) and the running flag. */
  datatype CallState = CallState(runtime: Runtime, callstack: seq<Runtime>, running: bool)

  /** Outside a run there is nothing suspended and the current runtime is the cleared one. */
  ghost predicate Settled(s: CallState, blank: Runtime) {
    !s.running ==> s.callstack == [] && s.runtime == blank
  }

  /** begin: inside a run, suspend the current runtime and start a cleared one; otherwise start running. */
  function AfterBegin(s: CallState, blank: Runtime): CallState {
    if s.running then CallState(blank, s.callstack + [s.runtime], true)
    else s.(running := true)
  }

  /** end: resume the most recently suspended runtime, or, with none left, clear the runtime and stop. */
  function AfterEnd(s: CallState, blank: Runtime): CallState {
    if s.callstack == [] then CallState(blank, [], false)
    else CallState(s.callstack[|s.callstack| - 1], s.callstack[..|s.callstack| - 1], s.running)
  }

  /** n nested begins. */
  function Begins(s: CallState, blank: Runtime, n: nat): CallState {
    if n == 0 then s else AfterBegin(Begins(s, blank, n - 1), blank)
  }

  /** n ends, one after the other. */
  function Ends(s: CallState, blank: Runtime, n: nat): CallState
    decreases n
  {
    if n == 0 then s else Ends(AfterEnd(s, blank), blank, n - 1)
  }

  /** An end right after a begin undoes it: same runtime, same call stack, same running flag. */
  lemma BeginThenEnd(s: CallState, blank: Runtime)
    requires Settled(s, blank)
    ensures Settled(AfterBegin(s, blank), blank)
    ensures AfterEnd(AfterBegin(s, blank), blank) == s
  {
  }

  /** After n begins the interpreter runs, and the call stack has grown by one frame per nested begin. */
  lemma {:induction false} CallDepth(s: CallState, blank: Runtime, n: nat)
    requires Settled(s, blank)
    ensures Settled(Begins(s, blank, n), blank)
    ensures Begins(s, blank, n).running == (s.running || n > 0)
    ensures |Begins(s, blank, n).callstack| ==
      if s.running then |s.callstack| + n else if n == 0 then 0 else n - 1
    ensures Begins(s, blank, n).callstack[..|s.callstack|] == s.callstack
  {
    if n > 0 {
      CallDepth(s, blank, n - 1);
    }
  }

  /** n begins followed by n ends give back the starting state, runtime included. */
  lemma {:induction false} NestedCallsReturn(s: CallState, blank: Runtime, n: nat)
    requires Settled(s, blank)
    ensures Ends(Begins(s, blank, n), blank, n) == s
  {
    if n > 0 {
      var inner := Begins(s, blank, n - 1);
      CallDepth(s, blank, n - 1);
      BeginThenEnd(inner, blank);
      NestedCallsReturn(s, blank, n - 1);
    }
  }

  class Interpreter {
    var callstack: seq<Runtime>
    var running: bool
    var runtime: Runtime
    var segment0: map<int, Opcode1>
    var segment1: map<int, Opcode2>
    var segment2: map<int, Opcode1>
    var segment3: map<int, Opcode1>
    var segment4: map<int, Opcode2>
    var segment5: map<int, Opcode0>
    /** The runtime as Runtime::clear leaves it. */
    const blank: Runtime

    ghost function State(): CallState
      reads this
    {
      CallState(runtime, callstack, running)
    }

    ghost predicate Valid()
      reads this
    {
      Settled(State(), blank)
    }

    constructor (blank: Runtime)
      ensures Valid() && this.blank == blank
      ensures State() == CallState(blank, [], false)
      ensures segment0 == map[] && segment1 == map[] && segment2 == map[]
      ensures segment3 == map[] && segment4 == map[] && segment5 == map[]
    {
      this.blank := blank;
      runtime := blank;
      callstack := [];
      running := false;
      segment0, segment1, segment2 := map[], map[], map[];
      segment3, segment4, segment5 := map[], map[], map[];
    }

    /** Whether the table of `segment` has a handler for `opcode`. */
    predicate Installed(segment: nat, opcode: int)
      reads this
    {
      match segment
      case 0 => opcode in segment0
      case 1 => opcode in segment1
      case 2 => opcode in segment2
      case 3 => opcode in segment3
      case 4 => opcode in segment4
      case 5 => opcode in segment5
      case _ => false
    }

    /** execute: decode the word and pick the handler of its segment and opcode, or abort. */
    function Execute(code: Word): (r: Outcome)
      reads this
      ensures r.UnknownSegment? <==> Decode(code).None?
      ensures r.UnknownSegment? ==> r.code == code
      ensures Decode(code).Some? ==>
        var i := Decode(code).value;
        && (r.UnknownCode? <==> !Installed(i.Segment(), i.opcode))
        && (r.UnknownCode? ==> r.segment == i.Segment() && r.opcode == i.opcode)
        && (r.Invoke0? ==> i.Seg5?)
        && (r.Invoke1? ==> (i.Seg0? || i.Seg2? || i.Seg3?) && r.arg0 == i.arg0)
        && (r.Invoke2? ==> (i.Seg1? || i.Seg4?) && r.arg0 == i.arg0 && r.arg1 == i.arg1)
        && (r.Invoke1? && i.Seg0? ==> r.handler1 == segment0[i.opcode])
        && (r.Invoke2? && i.Seg1? ==> r.handler2 == segment1[i.opcode])
        && (r.Invoke1? && i.Seg2? ==> r.handler1 == segment2[i.opcode])
        && (r.Invoke1? && i.Seg3? ==> r.handler1 == segment3[i.opcode])
        && (r.Invoke2? && i.Seg4? ==> r.handler2 == segment4[i.opcode])
        && (r.Invoke0? ==> r.handler0 == segment5[i.opcode])
    {
      match Decode(code)
      case None => UnknownSegment(code)
      case Some(i) =>
        match i
        case Seg0(op, a) => if op in segment0 then Invoke1(segment0[op], a) else UnknownCode(0, op)
        case Seg1(op, a, b) => if op in segment1 then Invoke2(segment1[op], a, b) else UnknownCode(1, op)
        case Seg2(op, a) => if op in segment2 then Invoke1(segment2[op], a) else UnknownCode(2, op)
        case Seg3(op, a) => if op in segment3 then Invoke1(segment3[op], a) else UnknownCode(3, op)
        case Seg4(op, a, b) => if op in segment4 then Invoke2(segment4[op], a, b) else UnknownCode(4, op)
        case Seg5(op) => if op in segment5 then Invoke0(segment5[op]) else UnknownCode(5, op)
    }

    /** Adds a segment 0 instruction (6-bit opcode, 24-bit argument); a later install of the same code replaces it. */
    method InstallSegment0(code: int, opcode: Opcode1)
      modifies this`segment0
      ensures segment0 == old(segment0)[code := opcode]
      ensures forall arg :: 0 <= code < 0x40 && 0 <= arg < 0x100_0000 ==>
        Execute(Encode(Seg0(code, arg))) == Invoke1(opcode, arg)
    {
      segment0 := segment0[code := opcode];
    }

    /** Adds a segment 1 instruction (6-bit opcode, two 12-bit arguments). */
    method InstallSegment1(code: int, opcode: Opcode2)
      modifies this`segment1
      ensures segment1 == old(segment1)[code := opcode]
      ensures forall a, b :: 0 <= code < 0x40 && 0 <= a < 0x1000 && 0 <= b < 0x1000 ==>
        Execute(Encode(Seg1(code, a, b))) == Invoke2(opcode, a, b)
    {
      segment1 := segment1[code := opcode];
    }

    /** Adds a segment 2 instruction (10-bit opcode, 20-bit argument). */
    method InstallSegment2(code: int, opcode: Opcode1)
      modifies this`segment2
      ensures segment2 == old(segment2)[code := opcode]
      ensures forall arg :: 0 <= code < 0x400 && 0 <= arg < 0x10_0000 ==>
        Execute(Encode(Seg2(code, arg))) == Invoke1(opcode, arg)
    {
      segment2 := segment2[code := opcode];
    }

    /** Adds a segment 3 instruction (18-bit opcode, 8-bit argument). */
    method InstallSegment3(code: int, opcode: Opcode1)
      modifies this`segment3
      ensures segment3 == old(segment3)[code := opcode]
      ensures forall arg :: 0 <= code < 0x4_0000 && 0 <= arg < 0x100 ==>
        Execute(Encode(Seg3(code, arg))) == Invoke1(opcode, arg)
    {
      segment3 := segment3[code := opcode];
    }

    /** Adds a segment 4 instruction (10-bit opcode, two 8-bit arguments). */
    method InstallSegment4(code: int, opcode: Opcode2)
      modifies this`segment4
      ensures segment4 == old(segment4)[code := opcode]
      ensures forall a, b :: 0 <= code < 0x400 && 0 <= a < 0x100 && 0 <= b < 0x100 ==>
        Execute(Encode(Seg4(code, a, b))) == Invoke2(opcode, a, b)
    {
      segment4 := segment4[code := opcode];
    }

    /** Adds a segment 5 instruction (26-bit opcode, no argument). */
    method InstallSegment5(code: int, opcode: Opcode0)
      modifies this`segment5
      ensures segment5 == old(segment5)[code := opcode]
      ensures 0 <= code < 0x400_0000 ==> Execute(Encode(Seg5(code))) == Invoke0(opcode)
    {
      segment5 := segment5[code := opcode];
    }

    method Begin()
      requires Valid()
      modifies this`callstack, this`runtime, this`running
      ensures Valid() && State() == AfterBegin(old(State()), blank)
    {
      if running {
        callstack := callstack + [runtime];
        runtime := blank;
      } else {
        running := true;
      }
    }

    method End()
      requires Valid()
      modifies this`callstack, this`runtime, this`running
      ensures Valid() && State() == AfterEnd(old(State()), blank)
    {
      if callstack == [] {
        runtime := blank;
        running := false;
      } else {
        runtime := callstack[|callstack| - 1];
        callstack := callstack[..|callstack| - 1];
      }
    }
  }

  /** A word whose opcode has no handler in its segment's table aborts and calls no handler. */
  lemma UnknownOpcodeAborts(it: Interpreter, i: Instruction)
    requires i.InRange() && !it.Installed(i.Segment(), i.opcode)
    ensures it.Execute(Encode(i)) == UnknownCode(i.Segment(), i.opcode)
  {
  }
}
