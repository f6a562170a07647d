/** Maintenance by address: the lines the do-while loop names are exactly those that meet the byte range. */
module CacheByAddr {
  import opened Words
  import opened Cache

  type i32 = x: int | -0x8000_0000 <= x < 0x8000_0000

  /** uint32 to int32: the upper half of the values turns negative. */
  function Signed(x: u32): i32 {
    if x < 0x8000_0000 then x else x - 0x1_0000_0000
  }

  /** int32 to uint32. */
  function Unsigned(x: i32): u32 {
    if x >= 0 then x else x + 0x1_0000_0000
  }

  /** `dsize + (((uint32_t)addr) & 31)`: a uint32 sum stored in an int32. */
  function OpSize(addr: u32, dsize: i32): i32 {
    Signed(Add32(Unsigned(dsize), addr % LINE))
  }

  /** `opSize -= 32U`: the difference is taken in uint32 as well. */
  function NextSize(opSize: i32): i32 {
    Signed(Sub32(Unsigned(opSize), LINE))
  }

  /** Line numbers wrap with the address space. */
  function WrapLine(x: nat): nat {
    if x < LINES then x else x - LINES
  }

  /** The line of the byte at addr + k. */
  function LineOf(addr: u32, k: nat): nat {
    WrapLine((addr + k) / LINE)
  }

  /** Line l holds at least one of the bytes addr .. addr+size-1. */
  ghost predicate Meets(addr: u32, size: int, l: nat) {
    exists k :: 0 <= k < size && LineOf(addr, k) == l
  }

  /** n lines from l on. */
  function Walk(l: nat, n: nat): seq<nat> {
    if n == 0 then [] else Walk(l, n - 1) + [WrapLine(l + (n - 1))]
  }

  function Lines(q: seq<nat>): set<nat> {
    set l | l in q
  }

  // ---------------------------------------------------------------- the lines of a range

  lemma {:induction false} WalkAt(l: nat, n: nat, i: nat)
    requires i < n
    ensures |Walk(l, n)| == n && Walk(l, n)[i] == WrapLine(l + i)
  {
    if n > 1 { WalkAt(l, n - 1, if i < n - 1 then i else 0); }
    if n == 1 { assert Walk(l, 0) == []; }
  }

  /** The number of lines that `size` bytes from offset `off` of a line touch. */
  function Count(off: nat, size: nat): nat
    requires size > 0
  {
    (off + size - 1) / LINE + 1
  }

  lemma LinePlus(addr: u32, k: nat)
    ensures (addr + k) / LINE == addr / LINE + (addr % LINE + k) / LINE
  {
    assert addr + k == LINE * (addr / LINE) + (addr % LINE + k);
  }

  /** The walk lists the lines of the bytes addr .. addr+size-1 and nothing else, each once, also when the
      range runs over the end of the address space. */
  lemma WalkCovers(addr: u32, size: nat)
    requires 0 < size < TWO31
    ensures var q := Walk(addr / LINE, Count(addr % LINE, size));
            && Distinct(q)
            && (forall l :: l in q <==> Meets(addr, size, l))
  {
    var l, off, n := addr / LINE, addr % LINE, Count(addr % LINE, size);
    var q := Walk(l, n);
    WalkAt(l, n, 0);
    assert n <= 0x400_0001;
    forall i, j | 0 <= i < j < |q| ensures q[i] != q[j] {
      WalkAt(l, n, i);
      WalkAt(l, n, j);
    }
    forall k | 0 <= k < size ensures LineOf(addr, k) in q {
      LinePlus(addr, k);
      WalkAt(l, n, (off + k) / LINE);
    }
    forall i | 0 <= i < |q| ensures Meets(addr, size, q[i]) {
      WalkAt(l, n, i);
      var k := if i == 0 then 0 else LINE * i - off;
      LinePlus(addr, k);
      assert LineOf(addr, k) == q[i];
    }
  }

  // ---------------------------------------------------------------- the loop

  lemma WalkStart(c: State, op: Op, l: nat)
    ensures Walk(l, 0) == [] && Maintain(c, op, Lines([])) == c
  {
    MaintainNone(c, op);
    assert Lines([]) == {};
  }

  lemma WalkStep(c: State, op: Op, l: nat, k: nat)
    requires Ok(c)
    ensures Walk(l, k + 1) == Walk(l, k) + [WrapLine(l + k)]
    ensures Maintain(Maintain(c, op, Lines(Walk(l, k))), op, {WrapLine(l + k)}) ==
            Maintain(c, op, Lines(Walk(l, k + 1)))
  {
    hide Maintain, Ok;
    MaintainTwice(c, op, Lines(Walk(l, k)), {WrapLine(l + k)}, {WrapLine(l + k)});
    assert Lines(Walk(l, k + 1)) == Lines(Walk(l, k)) + {WrapLine(l + k)};
  }

  lemma NextAddress(opAddr: u32, x: nat)
    requires opAddr / LINE == WrapLine(x) && x < 2 * LINES - 1
    ensures Add32(opAddr, LINE) / LINE == WrapLine(x + 1)
  {
    assert (opAddr + LINE) / LINE == opAddr / LINE + 1;
    if opAddr + LINE >= TWO32 {
      var y := opAddr + LINE - TWO32;
      assert Low32(y) == y;
      assert LINES - 1 <= opAddr / LINE < LINES;
    }
  }

  /** The first subtraction may start from a negative opSize; it still leaves the right one. */
  lemma SizeStep(left: nat)
    requires 0 < left < TWO31 + LINE
    ensures NextSize(Signed(left)) == left - LINE
  {
  }

  class Maintenance {
    var c: State
    ghost var named: seq<nat>   // the lines whose addresses were written to the register

    constructor (c0: State)
      requires Ok(c0)
      ensures c == c0 && named == []
    {
      c, named := c0, [];
    }

    /** One write of a by-address register: only bits 31..5 count. */
    method WriteAddress(op: Op, opAddr: u32)
      requires Ok(c)
      modifies this
      ensures Ok(c) && named == old(named) + [opAddr / LINE] && c == Maintain(old(c), op, {opAddr / LINE})
    {
      MaintainOk(c, op, {opAddr / LINE});
      c := Maintain(c, op, {opAddr / LINE});
      named := named + [opAddr / LINE];
    }

    /** The do-while loop of the three by-address functions. */
    method Loop(op: Op, addr: u32, dsize: i32)
      requires Ok(c) && dsize > 0
      modifies this
      ensures Ok(c)
      ensures var q := Walk(addr / LINE, Count(addr % LINE, dsize));
              named == old(named) + q && c == Maintain(old(c), op, Lines(q))
    {
      hide Maintain, Ok, Walk;
      ghost var c0, l, total, k := c, addr / LINE, addr % LINE + dsize, 0;
      var opSize := OpSize(addr, dsize);
      var opAddr := addr;
      var more := true;
      WalkStart(c0, op, l);
      while more
        invariant 0 <= k <= Count(addr % LINE, dsize)
        invariant Ok(c) && c == Maintain(c0, op, Lines(Walk(l, k))) && named == old(named) + Walk(l, k)
        invariant opAddr / LINE == WrapLine(l + k)
        invariant more <==> total - LINE * k > 0
        invariant more ==> opSize == Signed(total - LINE * k)
        decreases total - LINE * k
      {
        WalkStep(c0, op, l, k);
        NextAddress(opAddr, l + k);
        SizeStep(total - LINE * k);
        WriteAddress(op, opAddr);
        opAddr := Add32(opAddr, LINE);
        opSize := NextSize(opSize);
        k := k + 1;
        more := opSize > 0;
      }
    }

    /** The three functions do nothing for a size that is not positive. For every other size, and wherever the
        range lies, they name each line that meets it once and no other line, so they maintain exactly these. */
    method ByAddr(op: Op, addr: u32, dsize: i32)
      requires Ok(c)
      modifies this
      ensures Ok(c) && |named| >= |old(named)| && named[..|old(named)|] == old(named)
      ensures var q := named[|old(named)|..];
              && Distinct(q)
              && (forall l :: l in q <==> Meets(addr, dsize, l))
              && c == Maintain(old(c), op, Lines(q))
    {
      hide Maintain, Ok, Walk;
      if dsize > 0 {
        WalkCovers(addr, dsize);
        Loop(op, addr, dsize);
        assert named[|old(named)|..] == Walk(addr / LINE, Count(addr % LINE, dsize));
      } else {
        assert named[|named|..] == [];
        WalkStart(c, op, 0);
      }
    }

    /** SCB_CleanDCache_by_Addr: memory holds for every byte of the range what was held for it; no line leaves the
        cache. The processor reads what it read if the cache is on; if it is off, what it reads changes exactly on
        the lines of the range that the cache holds with a value of their own. */
    method CleanDCacheByAddr(addr: u32, dsize: i32)
      requires Ok(c)
      modifies this
      ensures Ok(c) && c.enabled == old(c).enabled
      ensures c.lines.Keys == old(c).lines.Keys && c.mem.Keys == old(c).mem.Keys
      ensures forall l :: l in c.mem ==>
                (View(c, l) == View(old(c), l) <==>
                 old(c).enabled || !Meets(addr, dsize, l) || Held(old(c), l) == old(c).mem[l])
      ensures forall k :: 0 <= k < dsize && LineOf(addr, k) in c.mem ==>
                var l := LineOf(addr, k); c.mem[l] == Held(old(c), l) && (l in c.lines ==> !c.lines[l].dirty)
      ensures forall l :: l in c.mem && !Meets(addr, dsize, l) ==>
                c.mem[l] == old(c).mem[l] && (l in c.lines ==> c.lines[l] == old(c).lines[l])
    {
      ByAddr(Clean, addr, dsize);
    }

    /** SCB_CleanInvalidateDCache_by_Addr: the same, and no line of the range is left in the cache. */
    method CleanInvalidateDCacheByAddr(addr: u32, dsize: i32)
      requires Ok(c)
      modifies this
      ensures Ok(c) && c.enabled == old(c).enabled && c.mem.Keys == old(c).mem.Keys
      ensures forall l :: l in c.mem ==>
                (View(c, l) == View(old(c), l) <==>
                 old(c).enabled || !Meets(addr, dsize, l) || Held(old(c), l) == old(c).mem[l])
      ensures forall l :: l in c.lines <==> l in old(c).lines && !Meets(addr, dsize, l)
      ensures forall k :: 0 <= k < dsize && LineOf(addr, k) in c.mem ==>
                c.mem[LineOf(addr, k)] == Held(old(c), LineOf(addr, k))
      ensures forall l :: l in c.mem && !Meets(addr, dsize, l) ==>
                c.mem[l] == old(c).mem[l] && (l in c.lines ==> c.lines[l] == old(c).lines[l])
    {
      ByAddr(CleanInvalidate, addr, dsize);
    }

    /** SCB_InvalidateDCache_by_Addr: memory is untouched and the processor reads it on the lines of the range; if
        the cache is on, what it reads changes exactly on the lines that held a value of their own, which may lie
        outside the bytes asked for; if it is off, nothing it reads changes. */
    method InvalidateDCacheByAddr(addr: u32, dsize: i32)
      requires Ok(c)
      modifies this
      ensures Ok(c) && c.enabled == old(c).enabled && c.mem == old(c).mem
      ensures forall l :: l in c.lines <==> l in old(c).lines && !Meets(addr, dsize, l)
      ensures forall l :: l in c.mem ==>
                View(c, l) == if Meets(addr, dsize, l) then c.mem[l] else View(old(c), l)
      ensures forall l :: l in c.mem ==>
                (View(c, l) == View(old(c), l) <==>
                 !old(c).enabled || !Meets(addr, dsize, l) || Held(old(c), l) == c.mem[l])
    {
      ByAddr(Invalidate, addr, dsize);
    }
  }
}
