/** Loading a table of memory protection regions through the alias registers. */
module Mpu {
  import opened Words

  /** One row of the table: the words for RBAR and RASR. */
  datatype Region = Region(rbar: u32, rasr: u32)

  /** The region file: the selected region and, for each of the 16 numbers, base address bits and attributes. */
  datatype Unit = Unit(rnr: nat, base: seq<nat>, attr: seq<nat>)

  predicate Ok(u: Unit) {
    u.rnr < 16 && |u.base| == 16 && |u.attr| == 16
  }

  /** A base word with its VALID bit (bit 4) set selects the region in its low bits. */
  function Selects(u: Unit, rbar: u32): nat {
    if rbar / 16 % 2 == 1 then rbar % 16 else u.rnr
  }

  function WriteRbar(u: Unit, v: u32): (u': Unit)
    requires Ok(u)
    ensures Ok(u')
  {
    var n := Selects(u, v);
    Unit(n, u.base[n := v / 32], u.attr)
  }

  function WriteRasr(u: Unit, v: u32): (u': Unit)
    requires Ok(u)
    ensures Ok(u')
  {
    u.(attr := u.attr[u.rnr := v])
  }

  /** The i-th word from RBAR on: RBAR, RASR, RBAR_A1, RASR_A1, ... the aliases act as the registers they alias. */
  function WriteAt(u: Unit, i: nat, v: u32): (u': Unit)
    requires Ok(u)
    ensures Ok(u')
  {
    if i % 2 == 0 then WriteRbar(u, v) else WriteRasr(u, v)
  }

  /** ARM_MPU_SetRegion */
  function Set(u: Unit, e: Region): (u': Unit)
    requires Ok(u)
    ensures Ok(u')
  {
    WriteRasr(WriteRbar(u, e.rbar), e.rasr)
  }

  /** The rows set one at a time, in table order. */
  function SetEach(u: Unit, table: seq<Region>): (u': Unit)
    requires Ok(u)
    ensures Ok(u')
  {
    if table == [] then u else Set(SetEach(u, table[..|table| - 1]), table[|table| - 1])
  }

  /** The k-th word of the table in memory. */
  function WordAt(table: seq<Region>, k: nat): u32
    requires k < 2 * |table|
  {
    if k % 2 == 0 then table[k / 2].rbar else table[k / 2].rasr
  }

  /** The first n words of the table. */
  function Image(table: seq<Region>, n: nat): seq<u32>
    requires n <= 2 * |table|
  {
    if n == 0 then [] else Image(table, n - 1) + [WordAt(table, n - 1)]
  }

  /** The region file after the first n words have gone to RBAR and RASR in turn. */
  function Feed(u: Unit, table: seq<Region>, n: nat): (u': Unit)
    requires Ok(u) && n <= 2 * |table|
    ensures Ok(u')
  {
    if n == 0 then u else WriteAt(Feed(u, table, n - 1), n - 1, WordAt(table, n - 1))
  }

  // ---------------------------------------------------------------- laws

  /** Words fed in turn set the rows one by one. */
  lemma {:induction false} FeedSets(u: Unit, table: seq<Region>, n: nat)
    requires Ok(u) && n <= |table|
    ensures Feed(u, table, 2 * n) == SetEach(u, table[..n])
  {
    hide WriteRbar, WriteRasr;
    if n > 0 {
      FeedSets(u, table, n - 1);
      assert table[..n][..n - 1] == table[..n - 1];
      assert Feed(u, table, 2 * n - 1) == WriteRbar(Feed(u, table, 2 * n - 2), table[n - 1].rbar);
      assert Feed(u, table, 2 * n) == WriteRasr(Feed(u, table, 2 * n - 1), table[n - 1].rasr);
    }
  }

  /** If every row names its region, a region ends up as its last row says, and a region without a row as it was. */
  lemma {:induction false} LastRowWins(u: Unit, table: seq<Region>, n: nat)
    requires Ok(u) && n < 16
    requires forall i :: 0 <= i < |table| ==> table[i].rbar / 16 % 2 == 1
    ensures var u' := SetEach(u, table);
            && (forall i :: 0 <= i < |table| && table[i].rbar % 16 == n &&
                            (forall j :: i < j < |table| ==> table[j].rbar % 16 != n) ==>
                  u'.base[n] == table[i].rbar / 32 && u'.attr[n] == table[i].rasr)
            && ((forall i :: 0 <= i < |table| ==> table[i].rbar % 16 != n) ==>
                  u'.base[n] == u.base[n] && u'.attr[n] == u.attr[n])
  {
    if table != [] {
      LastRowWins(u, table[..|table| - 1], n);
    }
  }

  // ---------------------------------------------------------------- the functions

  class Mpu {
    const aliases: nat         // MPU_TYPE_RALIASES
    var u: Unit
    ghost var log: seq<u32>    // the values written, in order

    constructor (aliases: nat, u0: Unit)
      requires aliases >= 1 && Ok(u0)
      ensures this.aliases == aliases && u == u0 && log == []
    {
      this.aliases, u, log := aliases, u0, [];
    }

    /** ARM_MPU_SetRegion */
    method SetRegion(e: Region)
      requires Ok(u) && aliases >= 1
      modifies this
      ensures u == Set(old(u), e) && log == old(log) + [e.rbar, e.rasr]
    {
      WriteWord(0, e.rbar);
      WriteWord(1, e.rasr);
    }

    /** One store into the register window; it has room for `aliases` pairs. */
    method WriteWord(i: nat, v: u32)
      requires Ok(u) && i < 2 * aliases
      modifies this
      ensures u == WriteAt(old(u), i, v) && log == old(log) + [v]
    {
      u := WriteAt(u, i, v);
      log := log + [v];
    }

    /** ARM_MPU_OrderedMemcpy from word `src` of the table to the register window: it goes on with the words that
        were fed before, in memory order. */
    method OrderedMemcpy(table: seq<Region>, src: nat, len: nat, ghost u0: Unit, ghost l0: seq<u32>)
      requires src % 2 == 0 && src + len <= 2 * |table| && len <= 2 * aliases
      requires Ok(u0) && u == Feed(u0, table, src) && log == l0 + Image(table, src)
      modifies this
      ensures u == Feed(u0, table, src + len) && log == l0 + Image(table, src + len)
    {
      hide Ok;
      var i := 0;
      while i < len
        invariant i <= len && u == Feed(u0, table, src + i) && log == l0 + Image(table, src + i)
      {
        hide WriteAt, WordAt;
        WriteWord(i, WordAt(table, src + i));
        SameParity(u0, table, src, i);
        i := i + 1;
      }
    }

    /** ARM_MPU_Load: whatever the number of aliases, the region file ends up as if ARM_MPU_SetRegion had been
        called for each row in turn, and every word of the rows was written once, in order. */
    method Load(table: seq<Region>, count: u32)
      requires Ok(u) && aliases >= 1 && count <= |table|
      modifies this
      ensures u == SetEach(old(u), table[..count]) && log == old(log) + Image(table, 2 * count)
    {
      hide Feed, Image, SetEach;
      ghost var u0, l0 := u, log;
      var cnt: nat, at: nat := count, 0;
      FeedNone(u, table);
      while cnt > aliases
        invariant at + cnt == count && cnt <= count
        invariant u == Feed(u0, table, 2 * at) && log == l0 + Image(table, 2 * at)
      {
        OrderedMemcpy(table, 2 * at, 2 * aliases, u0, l0);
        at := at + aliases;
        cnt := cnt - aliases;
      }
      OrderedMemcpy(table, 2 * at, 2 * cnt, u0, l0);
      FeedSets(u0, table, count);
    }
  }

  lemma SameParity(u: Unit, table: seq<Region>, src: nat, i: nat)
    requires Ok(u) && src % 2 == 0 && src + i < 2 * |table|
    ensures Feed(u, table, src + i + 1) == WriteAt(Feed(u, table, src + i), i, WordAt(table, src + i))
  {
    hide WriteRbar, WriteRasr, WordAt;
  }

  lemma FeedNone(u: Unit, table: seq<Region>)
    requires Ok(u)
    ensures Feed(u, table, 0) == u && Image(table, 0) == []
  {
  }
}
