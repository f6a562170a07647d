/** The set/way walks of the cache functions: every (set, way) pair once, although both counters run past zero. */
module CacheSetWay {
  import opened Words
  import opened Cache

  /** CCSIDR_SETS and CCSIDR_WAYS: the 15-bit and 10-bit fields hold the numbers less one. */
  function CcsidrSets(ccsidr: u32): (n: nat)
    ensures n < 0x8000
  {
    ccsidr / 0x2000 % 0x8000
  }

  function CcsidrWays(ccsidr: u32): (n: nat)
    ensures n < 0x400
  {
    ccsidr / 8 % 0x400
  }

  /** `((sets << 5) & (0x1FF << 5)) | ((ways << 30) & (3 << 30))`, shifts and masks as arithmetic. */
  function Code(s: nat, w: nat): nat {
    s % 512 * 32 + w % 4 * 0x4000_0000
  }

  /** What the hardware reads in the register: the set in bits 13 to 5, the way in bits 31 and 30. */
  function SetField(code: nat): nat {
    code / 32 % 512
  }

  function WayField(code: nat): nat {
    code / 0x4000_0000 % 4
  }

  predicate Addresses(code: nat, e: Entry) {
    e.row == SetField(code) && e.way == WayField(code)
  }

  /** The line of the slot that a register write addresses. */
  function Slot(c: State, code: nat): set<nat>
  {
    set l | l in c.lines && Addresses(code, c.lines[l])
  }

  /** The codes of one row, the way counting down to zero, and of all rows. */
  function RowCodes(s: nat, w: nat): seq<nat> {
    [Code(s, w)] + if w == 0 then [] else RowCodes(s, w - 1)
  }

  function AllCodes(s: nat, w: nat): seq<nat> {
    RowCodes(s, w) + if s == 0 then [] else AllCodes(s - 1, w)
  }

  /** The cache after a sequence of register writes. */
  function Apply(c: State, op: Op, codes: seq<nat>): State
  {
    if codes == [] then c
    else
      var c' := Apply(c, op, codes[..|codes| - 1]);
      Maintain(c', op, Slot(c', codes[|codes| - 1]))
  }

  // ---------------------------------------------------------------- which codes

  lemma RowStep(s: nat, w: nat)
    ensures RowCodes(s, w) == [Code(s, w)] + if w == 0 then [] else RowCodes(s, w - 1)
  {
  }

  /** The word written holds the set and the way in the fields the hardware reads, and zeros everywhere else. */
  lemma CodeFields(s: nat, w: nat)
    ensures var x := Code(s, w);
            && x < 0x1_0000_0000 && x / 32 % 512 == s % 512 && x / 0x4000_0000 % 4 == w % 4
            && x == x / 32 % 512 * 32 + x / 0x4000_0000 % 4 * 0x4000_0000
  {
    LowField(s % 512, w % 4);
  }

  lemma LowField(s: nat, w: nat)
    requires s < 512 && w < 4
    ensures var x := s * 32 + w * 0x4000_0000; x / 32 % 512 == s && x / 0x4000_0000 == w
  {
    var x := s * 32 + w * 0x4000_0000;
    assert x / 32 == s + 512 * (w * 65536);
    FieldOf(s, w * 65536);
  }

  lemma FieldOf(s: nat, high: nat)
    requires s < 512
    ensures (s + 512 * high) % 512 == s
  {
  }

  lemma CodeInjective(s: nat, w: nat, s': nat, w': nat)
    requires Code(s, w) == Code(s', w')
    ensures s % 512 == s' % 512 && w % 4 == w' % 4
  {
    CodeFields(s, w);
    CodeFields(s', w');
  }

  /** The geometry fields: bits 27 to 13 hold the number of sets less one, bits 12 to 3 that of the ways. */
  lemma GeometryFields(sets: nat, ways: nat, rest: nat)
    requires sets < 0x8000 && ways < 0x400 && rest < 8
    ensures var id: u32 := 0x2000 * sets + 8 * ways + rest; CcsidrSets(id) == sets && CcsidrWays(id) == ways
  {
    var id := 0x2000 * sets + 8 * ways + rest;
    assert id / 0x2000 == sets;
    assert id / 8 == 0x400 * sets + ways;
  }

  lemma {:induction false} RowAt(s: nat, w: nat, j: nat)
    requires j <= w
    ensures |RowCodes(s, w)| == w + 1 && RowCodes(s, w)[j] == Code(s, w - j)
  {
    hide Code;
    if w > 0 { RowAt(s, w - 1, if j > 0 then j - 1 else 0); }
  }

  lemma AllStep(s: nat, w: nat)
    ensures AllCodes(s, w) == RowCodes(s, w) + if s == 0 then [] else AllCodes(s - 1, w)
  {
  }

  /** n rows of m words. */
  function Size(n: nat, m: nat): nat {
    n * m
  }

  lemma OneRowMore(n: nat, m: nat)
    ensures Size(0, m) == 0 && Size(n + 1, m) == m + Size(n, m)
  {
  }

  lemma {:induction false} WordAt(s: nat, w: nat, i: nat, j: nat)
    requires i <= s && j <= w
    ensures var all, k := AllCodes(s, w), Size(i, w + 1) + j;
            |all| == Size(s + 1, w + 1) && k < |all| && all[k] == Code(s - i, w - j)
    decreases s
  {
    hide *;
    RowAt(s, w, j);
    AllStep(s, w);
    OneRowMore(s, w + 1);
    if s > 0 {
      WordAt(s - 1, w, if i > 0 then i - 1 else 0, j);
    }
    if i > 0 { OneRowMore(i - 1, w + 1); } else { OneRowMore(0, w + 1); }
  }

  /** The words in order: sets from the highest down, and within a set the ways from the highest down. */
  lemma WritesInOrder(s: nat, w: nat, i: nat, j: nat)
    requires i <= s && j <= w
    ensures var all, k := AllCodes(s, w), i * (w + 1) + j;
            && |all| == (s + 1) * (w + 1) && k < |all|
            && all[k] == (s - i) % 512 * 32 + (w - j) % 4 * 0x4000_0000
  {
    hide AllCodes;
    WordAt(s, w, i, j);
  }

  lemma {:induction false} RowHas(s: nat, w: nat, x: nat)
    ensures x in RowCodes(s, w) <==> exists v :: 0 <= v <= w && x == Code(s, v)
  {
    hide Code;
    if w == 0 {
      assert RowCodes(s, w) == [Code(s, 0)];
    } else {
      RowHas(s, w - 1, x);
    }
  }

  ghost predicate IsCode(s: nat, w: nat, x: nat) {
    exists u, v :: 0 <= u <= s && 0 <= v <= w && x == Code(u, v)
  }

  lemma {:induction false} AllOnly(s: nat, w: nat, x: nat)
    requires x in AllCodes(s, w)
    ensures IsCode(s, w, x)
  {
    hide Code, RowCodes;
    RowHas(s, w, x);
    if x in RowCodes(s, w) {
      var v :| 0 <= v <= w && x == Code(s, v);
    } else {
      AllOnly(s - 1, w, x);
      var u, v :| 0 <= u <= s - 1 && 0 <= v <= w && x == Code(u, v);
    }
  }

  lemma {:induction false} AllEvery(s: nat, w: nat, u: nat, v: nat)
    requires u <= s && v <= w
    ensures Code(u, v) in AllCodes(s, w)
  {
    hide Code, RowCodes;
    if u == s { RowHas(s, w, Code(u, v)); } else { AllEvery(s - 1, w, u, v); }
  }

  lemma DistinctConcat(p: seq<nat>, q: seq<nat>)
    requires Distinct(p) && Distinct(q) && forall x :: x in p ==> x !in q
    ensures Distinct(p + q)
  {
    forall i, j | 0 <= i < j < |p + q| ensures (p + q)[i] != (p + q)[j] {
      if i < |p| <= j { assert p[i] in p && q[j - |p|] in q; }
    }
  }

  lemma NotInRow(s: nat, w: nat)
    requires 0 < w <= 3
    ensures Code(s, w) !in RowCodes(s, w - 1)
  {
    hide Code, RowCodes;
    RowHas(s, w - 1, Code(s, w));
    if Code(s, w) in RowCodes(s, w - 1) {
      var v :| 0 <= v <= w - 1 && Code(s, w) == Code(s, v);
      CodeInjective(s, w, s, v);
    }
  }

  lemma {:induction false} RowDistinct(s: nat, w: nat)
    requires w <= 3
    ensures Distinct(RowCodes(s, w))
  {
    hide Code;
    if w > 0 {
      RowDistinct(s, w - 1);
      NotInRow(s, w);
      DistinctConcat([Code(s, w)], RowCodes(s, w - 1));
    }
  }

  /** A geometry that fits the register fields: every pair has a code of its own, written exactly once. */
  lemma {:induction false} EveryPairOnce(s: nat, w: nat)
    requires s <= 511 && w <= 3
    ensures Distinct(AllCodes(s, w))
    ensures forall u, v :: 0 <= u <= s && 0 <= v <= w ==> Code(u, v) in AllCodes(s, w)
  {
    hide RowCodes, Code;
    RowDistinct(s, w);
    if s > 0 {
      EveryPairOnce(s - 1, w);
      forall x | x in RowCodes(s, w) ensures x !in AllCodes(s - 1, w) {
        LaterRow(s, w, x);
      }
      DistinctConcat(RowCodes(s, w), AllCodes(s - 1, w));
    }
    forall u, v | 0 <= u <= s && 0 <= v <= w ensures Code(u, v) in AllCodes(s, w) {
      AllEvery(s, w, u, v);
    }
  }

  lemma LaterRow(s: nat, w: nat, x: nat)
    requires 0 < s <= 511 && w <= 3 && x in RowCodes(s, w)
    ensures x !in AllCodes(s - 1, w)
  {
    hide RowCodes, AllCodes, Code;
    RowHas(s, w, x);
    var v :| 0 <= v <= w && x == Code(s, v);
    if x in AllCodes(s - 1, w) {
      AllOnly(s - 1, w, x);
      var u, v' :| 0 <= u <= s - 1 && 0 <= v' <= w && x == Code(u, v');
      CodeInjective(s, v, u, v');
    }
  }

  // ---------------------------------------------------------------- what a pass does

  predicate Named(codes: seq<nat>, e: Entry) {
    exists code :: code in codes && Addresses(code, e)
  }

  /** The lines whose slot one of the register writes addresses. */
  function Hit(c: State, codes: seq<nat>): set<nat>
  {
    set l | l in c.lines && Named(codes, c.lines[l])
  }

  lemma HitSnoc(c: State, codes: seq<nat>, code: nat)
    ensures Hit(c, codes + [code]) == Hit(c, codes) + Slot(c, code)
  {
    hide Addresses;
    forall l | l in c.lines
      ensures Named(codes + [code], c.lines[l]) <==> Named(codes, c.lines[l]) || Addresses(code, c.lines[l])
    {
      var e := c.lines[l];
      if Named(codes, e) { var x :| x in codes && Addresses(x, e); assert x in codes + [code]; }
      if Addresses(code, e) { assert code in codes + [code]; }
    }
  }

  lemma {:induction false} ApplyIs(c: State, op: Op, codes: seq<nat>)
    requires Ok(c)
    ensures Apply(c, op, codes) == Maintain(c, op, Hit(c, codes))
  {
    hide Addresses, Maintain;
    if codes == [] {
      MaintainNone(c, op);
      assert Hit(c, codes) == {};
    } else {
      var n := |codes| - 1;
      ApplyIs(c, op, codes[..n]);
      var D, c' := Hit(c, codes[..n]), Apply(c, op, codes[..n]);
      assert codes == codes[..n] + [codes[n]];
      HitSnoc(c, codes[..n], codes[n]);
      KeepsSlots(c, op, D, codes[n]);
      MaintainTwice(c, op, D, Slot(c, codes[n]), Slot(c', codes[n]));
    }
  }

  /** The geometry the register fields have room for: at most 512 sets and 4 ways. */
  predicate Fits(c: State) {
    c.sets <= 512 && c.ways <= 4
  }

  /** The lines whose slots the register fields can name. */
  function Reachable(c: State): set<nat> {
    set l | l in c.lines && c.lines[l].row < 512 && c.lines[l].way < 4
  }

  /** Maintenance moves no line to another slot. */
  lemma KeepsSlots(c: State, op: Op, D: set<nat>, code: nat)
    ensures var c' := Maintain(c, op, D);
            forall l :: l in c'.lines ==>
              l in c.lines && (Addresses(code, c'.lines[l]) <==> Addresses(code, c.lines[l]))
  {
    hide SetField, WayField;
  }

  lemma WalkNames(sets: nat, ways: nat, e: Entry)
    requires e.row < sets && e.way < ways
    ensures Named(AllCodes(sets - 1, ways - 1), e) <==> e.row < 512 && e.way < 4
  {
    hide Code, AllCodes;
    var codes := AllCodes(sets - 1, ways - 1);
    if Named(codes, e) {
      var x :| x in codes && Addresses(x, e);
      AllOnly(sets - 1, ways - 1, x);
    }
    if e.row < 512 && e.way < 4 {
      AllEvery(sets - 1, ways - 1, e.row, e.way);
      CodeFields(e.row, e.way);
      assert Addresses(Code(e.row, e.way), e);
    }
  }

  /** A full walk maintains every cached line exactly when every cached line sits where the fields can reach. */
  lemma WalkReaches(c: State, op: Op)
    requires Ok(c)
    ensures Apply(c, op, AllCodes(c.sets - 1, c.ways - 1)) ==
            Maintain(c, op, Reachable(c))
    ensures Fits(c) ==>
              Apply(c, op, AllCodes(c.sets - 1, c.ways - 1)) == Maintain(c, op, c.lines.Keys)
  {
    hide Code, Maintain, Apply, AllCodes, Named;
    var codes := AllCodes(c.sets - 1, c.ways - 1);
    ApplyIs(c, op, codes);
    forall l | l in c.lines ensures Named(codes, c.lines[l]) <==> c.lines[l].row < 512 && c.lines[l].way < 4 {
      WalkNames(c.sets, c.ways, c.lines[l]);
    }
    assert Hit(c, codes) == Reachable(c);
    if Fits(c) {
      assert Reachable(c) == c.lines.Keys;
    }
  }

  // ---------------------------------------------------------------- the functions

  class DCache {
    var c: State
    const ccsidr: u32
    ghost var writes: seq<nat>   // what was written to the set/way register

    ghost predicate Valid()
      reads this
    {
      Ok(c) && c.sets == CcsidrSets(ccsidr) + 1 && c.ways == CcsidrWays(ccsidr) + 1
    }

    constructor (c0: State, id: u32)
      requires Ok(c0) && c0.sets == CcsidrSets(id) + 1 && c0.ways == CcsidrWays(id) + 1
      ensures Valid() && c == c0 && ccsidr == id && writes == []
    {
      c, ccsidr, writes := c0, id, [];
    }

    method WriteSetWay(op: Op, code: nat)
      requires Valid()
      modifies this
      ensures Valid() && writes == old(writes) + [code] && c == Maintain(old(c), op, Slot(old(c), code))
    {
      MaintainOk(c, op, Slot(c, code));
      c := Maintain(c, op, Slot(c, code));
      writes := writes + [code];
    }

    /** The inner loop, `while (ways-- != 0U)`: it stops although the counter wraps to 0xFFFFFFFF on its last test. */
    method WalkRow(op: Op, sets: u32, ghost c0: State, ghost done: seq<nat>)
      requires Valid() && c == Apply(c0, op, done)
      modifies this
      ensures Valid() && c.sets == old(c).sets && c.ways == old(c).ways
      ensures writes == old(writes) + RowCodes(sets, CcsidrWays(ccsidr))
      ensures c == Apply(c0, op, done + RowCodes(sets, CcsidrWays(ccsidr)))
    {
      hide Code, Maintain, Apply, Slot, Ok, CcsidrSets, CcsidrWays, RowCodes;
      ghost var all, seen := RowCodes(sets, CcsidrWays(ccsidr)), [];
      var ways: u32 := CcsidrWays(ccsidr);
      var more := true;
      assert done + [] == done;
      while more
        invariant Valid() && writes == old(writes) + seen && c == Apply(c0, op, done + seen)
        invariant more ==> seen + RowCodes(sets, ways) == all
        invariant !more ==> seen == all
        decreases more, if more then ways else 0
      {
        var code := Code(sets, ways);
        ApplySnoc(c0, op, done + seen, code);
        RowStep(sets, ways);
        WriteSetWay(op, code);
        assert done + seen + [code] == done + (seen + [code]);
        seen := seen + [code];
        more := ways != 0;
        ways := Sub32(ways, 1);
      }
    }

    /** Both loops of a whole-cache function, `while (sets-- != 0U)` around the ways. */
    method Walk(op: Op)
      requires Valid()
      modifies this
      ensures Valid()
      ensures writes == old(writes) + AllCodes(old(c).sets - 1, old(c).ways - 1)
      ensures c == Apply(old(c), op, AllCodes(old(c).sets - 1, old(c).ways - 1))
    {
      hide Code, Maintain, Apply, Slot, Ok, RowCodes, CcsidrSets, CcsidrWays;
      ghost var c0, done := c, [];
      ApplyNone(c0, op);
      ghost var all := AllCodes(c.sets - 1, c.ways - 1);
      var sets: u32 := CcsidrSets(ccsidr);
      var more := true;
      while more
        invariant Valid() && writes == old(writes) + done && c == Apply(c0, op, done)
        invariant more ==> done + AllCodes(sets, c0.ways - 1) == all
        invariant !more ==> done == all
        decreases more, if more then sets else 0
      {
        WalkRow(op, sets, c0, done);
        done := done + RowCodes(sets, c0.ways - 1);
        more := sets != 0;
        sets := Sub32(sets, 1);
      }
    }

    /** SCB_EnableDCache: whatever the disabled cache still held is dropped first, so the processor goes on
        reading what it read, namely memory. */
    method EnableDCache()
      requires Valid()
      modifies this
      ensures Valid() && c.enabled
      ensures old(c).enabled ==> c == old(c)
      ensures !old(c).enabled && Fits(old(c)) ==>
                c.lines == map[] && forall l :: l in old(c).mem ==> l in c.mem && View(c, l) == View(old(c), l)
    {
      hide Apply, AllCodes, Code;
      if c.enabled { return; }
      WalkReaches(c, Invalidate);
      Walk(Invalidate);
      assert Fits(old(c)) ==> c.lines == map[];
      c := c.(enabled := true);
    }

    /** SCB_DisableDCache: off first, then clean and invalidate; memory ends up holding whatever was held, which is
        everything the processor could read if the cache was on. If it was off already, what it reads changes exactly
        on the lines the cache still held with a value of their own. */
    method DisableDCache()
      requires Valid()
      modifies this
      ensures Valid() && !c.enabled
      ensures Fits(old(c)) ==> c.lines == map[]
      ensures Fits(old(c)) ==> forall l :: l in old(c).mem ==>
                && l in c.mem && View(c, l) == c.mem[l] == Held(old(c), l)
                && (View(c, l) == View(old(c), l) <==> old(c).enabled || Held(old(c), l) == old(c).mem[l])
    {
      hide Apply, AllCodes, Code;
      c := c.(enabled := false);
      WalkReaches(c, CleanInvalidate);
      Walk(CleanInvalidate);
      assert Fits(old(c)) ==> c.lines == map[];
    }

    /** SCB_CleanInvalidateDCache: an empty cache, and memory holding whatever was held; the view is the same where
        the cache was on or held no value of its own, and nowhere else. */
    method CleanInvalidateDCache()
      requires Valid()
      modifies this
      ensures Valid() && c.enabled == old(c).enabled
      ensures Fits(old(c)) ==> c.lines == map[]
      ensures Fits(old(c)) ==> forall l :: l in old(c).mem ==>
                && l in c.mem && c.mem[l] == View(c, l) == Held(old(c), l)
                && (View(c, l) == View(old(c), l) <==> old(c).enabled || Held(old(c), l) == old(c).mem[l])
    {
      hide Apply, AllCodes, Code;
      WalkReaches(c, CleanInvalidate);
      Walk(CleanInvalidate);
      assert Fits(old(c)) ==> c.lines == map[];
    }

    /** SCB_CleanDCache: nothing dirty is left, the same lines stay cached, and memory holds whatever was held; the
        view is the same where the cache was on or held no value of its own, and nowhere else. */
    method CleanDCache()
      requires Valid()
      modifies this
      ensures Valid() && c.enabled == old(c).enabled && c.lines.Keys == old(c).lines.Keys
      ensures Fits(old(c)) ==> forall l :: l in c.lines ==> !c.lines[l].dirty
      ensures Fits(old(c)) ==> forall l :: l in old(c).mem ==>
                && l in c.mem && c.mem[l] == View(c, l) == Held(old(c), l)
                && (View(c, l) == View(old(c), l) <==> old(c).enabled || Held(old(c), l) == old(c).mem[l])
    {
      hide Apply, AllCodes, Code;
      WalkReaches(c, Clean);
      Walk(Clean);
    }

    /** SCB_InvalidateDCache: an empty cache, memory untouched; what only the cache knew is lost, and the view changes
        exactly there if the cache was on. */
    method InvalidateDCache()
      requires Valid()
      modifies this
      ensures Valid() && c.enabled == old(c).enabled && c.mem == old(c).mem
      ensures Fits(old(c)) ==> c.lines == map[]
      ensures Fits(old(c)) ==> forall l :: l in old(c).mem ==>
                (View(c, l) == View(old(c), l) <==> !old(c).enabled || Held(old(c), l) == old(c).mem[l])
    {
      hide Apply, AllCodes, Code;
      WalkReaches(c, Invalidate);
      Walk(Invalidate);
      assert Fits(old(c)) ==> c.lines == map[];
    }
  }

  lemma ApplyNone(c: State, op: Op)
    ensures Apply(c, op, []) == c
  {
  }

  lemma ApplySnoc(c: State, op: Op, codes: seq<nat>, code: nat)
    ensures var c' := Apply(c, op, codes); Apply(c, op, codes + [code]) == Maintain(c', op, Slot(c', code))
  {
    assert (codes + [code])[..|codes|] == codes;
  }

  /** A cache whose geometry does not fit the fields keeps lines a full walk cannot reach: for every larger
      geometry there is a cache that the clean-and-invalidate leaves non-empty. */
  lemma LargerGeometryEscapes(sets: nat, ways: nat) returns (c: State)
    requires sets > 0 && ways > 0 && (sets > 512 || ways > 4)
    ensures Ok(c) && c.sets == sets && c.ways == ways
    ensures Apply(c, CleanInvalidate, AllCodes(sets - 1, ways - 1)).lines != map[]
  {
    var r, w := if sets > 512 then 512 else 0, if ways > 4 then 4 else 0;
    c := State(sets, ways, true, map[0 := Entry(r, w, 1, true)], map[0 := 0]);
    WalkReaches(c, CleanInvalidate);
    assert 0 in Maintain(c, CleanInvalidate, Reachable(c)).lines;
  }
}
