/** The chip's register space seen through the bus: a register file giving
    each of the 256 8-bit addresses an 8-bit value, and the ordered log of the bus
    transactions the driver issues. A write stores its value; a read
    changes nothing; so a register the driver owns holds the value of the
    last write to it. */
module RegisterFile {
  import opened Mpr121Defs

  datatype Option<T> = None | Some(value: T) {
    function GetOr(default: T): T {
      match this
      case Some(v) => v
      case None => default
    }
  }

  /** One bus transaction: a one-byte read, a two-byte read starting at
      `addr`, or a one-byte write. */
  datatype Op = Read8(addr: Addr) | Read16(addr: Addr) | Write(addr: Addr, value: Byte)

  /** A register file: entry a is the contents of register a. */
  type Regs = m: seq<Byte> | |m| == 0x100 witness seq(0x100, _ => 0)

  predicate WritesTo(op: Op, a: Addr) {
    op.Write? && op.addr == a
  }

  /** The register file after the transactions `ops` have been issued,
      oldest first, against `m`. */
  function Apply(m: Regs, ops: seq<Op>): Regs {
    if ops == [] then m
    else
      var prior := Apply(m, ops[..|ops| - 1]);
      match ops[|ops| - 1]
      case Write(a, v) => prior[a := v]
      case _ => prior
  }

  /** The value of the last write to `a` in `ops`, if there is one. */
  function LastWrite(ops: seq<Op>, a: Addr): (r: Option<Byte>)
    ensures r.None? <==> forall k | 0 <= k < |ops| :: !WritesTo(ops[k], a)
    ensures r.Some? ==> exists k | 0 <= k < |ops| ::
      ops[k] == Write(a, r.value) && forall j | k < j < |ops| :: !WritesTo(ops[j], a)
  {
    if ops == [] then None
    else if WritesTo(ops[|ops| - 1], a) then Some(ops[|ops| - 1].value)
    else LastWrite(ops[..|ops| - 1], a)
  }

  /** A read returns the last value written: after `ops`, register `a`
      holds the value of the last write to it, or its earlier value when
      `ops` never writes it. */
  lemma {:induction false} ReadReturnsLastWrite(m: Regs, ops: seq<Op>, a: Addr)
    ensures Apply(m, ops)[a] == LastWrite(ops, a).GetOr(m[a])
  {
    if ops != [] {
      ReadReturnsLastWrite(m, ops[..|ops| - 1], a);
    }
  }

  /** One more write stores its value and keeps every other register. */
  lemma ApplyWrite(m: Regs, ops: seq<Op>, a: Addr, v: Byte)
    ensures Apply(m, ops + [Write(a, v)]) == Apply(m, ops)[a := v]
  {
    assert (ops + [Write(a, v)])[..|ops|] == ops;
  }

  /** One more read leaves the register file as it was. */
  lemma ApplyRead(m: Regs, ops: seq<Op>, op: Op)
    requires !op.Write?
    ensures Apply(m, ops + [op]) == Apply(m, ops)
  {
    assert (ops + [op])[..|ops|] == ops;
  }

  /** Issuing `xs` and then `ys` is issuing `xs + ys`. */
  lemma {:induction false} ApplyAppend(m: Regs, xs: seq<Op>, ys: seq<Op>)
    ensures Apply(m, xs + ys) == Apply(Apply(m, xs), ys)
  {
    if ys == [] {
      assert xs + ys == xs;
    } else {
      assert (xs + ys)[..|xs + ys| - 1] == xs + ys[..|ys| - 1];
      ApplyAppend(m, xs, ys[..|ys| - 1]);
    }
  }

  /** The control registers are pairwise distinct, so a write to one of
      them leaves every other one unchanged. */
  lemma ControlRegistersDistinct(m: Regs, v: Byte, i: nat, j: nat)
    requires i < |ControlRegisters| && j < |ControlRegisters| && i != j
    ensures ControlRegisters[i] != ControlRegisters[j]
    ensures m[ControlRegisters[i] := v][ControlRegisters[j]] == m[ControlRegisters[j]]
  {
  }

  /** Reads never change the register file. */
  lemma {:induction false} ReadsChangeNothing(m: Regs, ops: seq<Op>)
    requires forall k | 0 <= k < |ops| :: !ops[k].Write?
    ensures Apply(m, ops) == m
  {
    if ops != [] {
      ReadsChangeNothing(m, ops[..|ops| - 1]);
    }
  }
}
