/** A data cache in front of memory, at the granularity of 32-byte lines, and what maintenance does to it. */
module Cache {

  const LINE: nat := 32                  // __SCB_DCACHE_LINE_SIZE
  const LINES: nat := 0x800_0000         // lines of a 32-bit address space

  /** Where a cached line sits (set and way) and what it holds. */
  datatype Entry = Entry(row: nat, way: nat, data: int, dirty: bool)

  /** `sets` and `ways` are the numbers of sets and ways of the cache. */
  datatype State = State(sets: nat, ways: nat, enabled: bool, lines: map<nat, Entry>, mem: map<nat, int>)

  datatype Op = Clean | Invalidate | CleanInvalidate

  /** Cached lines have a place in memory and in the cache, and clean ones agree with memory. */
  ghost predicate Ok(c: State) {
    && c.sets > 0 && c.ways > 0
    && (forall l :: l in c.lines ==> l in c.mem && c.lines[l].row < c.sets && c.lines[l].way < c.ways)
    && (forall l :: l in c.lines && !c.lines[l].dirty ==> c.lines[l].data == c.mem[l])
  }

  /** What the processor reads from a line. */
  function View(c: State, l: nat): int
    requires l in c.mem
  {
    if c.enabled && l in c.lines then c.lines[l].data else c.mem[l]
  }

  /** What is held for a line: by the cache if it has it, even switched off, otherwise by memory. */
  function Held(c: State, l: nat): int
    requires l in c.mem
  {
    if l in c.lines then c.lines[l].data else c.mem[l]
  }

  /** Maintenance of the lines in D: clean writes them back, invalidate drops them. */
  function Maintain(c: State, op: Op, D: set<nat>): State {
    c.(mem := if op == Invalidate then c.mem
              else map l | l in c.mem :: if l in D && l in c.lines then c.lines[l].data else c.mem[l],
       lines := if op == Clean then map l | l in c.lines :: if l in D then c.lines[l].(dirty := false) else c.lines[l]
                else c.lines - D)
  }

  ghost predicate Distinct(q: seq<nat>) {
    forall i, j :: 0 <= i < j < |q| ==> q[i] != q[j]
  }

  // ---------------------------------------------------------------- laws

  lemma MaintainOk(c: State, op: Op, D: set<nat>)
    requires Ok(c)
    ensures Ok(Maintain(c, op, D))
  {
  }

  lemma MaintainNone(c: State, op: Op)
    ensures Maintain(c, op, {}) == c
  {
    var c' := Maintain(c, op, {});
    assert c'.mem == c.mem && c'.lines == c.lines;
  }

  /** Two passes amount to one over both sets, even if the second looks only at what the first left. */
  lemma MaintainTwice(c: State, op: Op, D: set<nat>, E: set<nat>, E': set<nat>)
    requires Ok(c)
    requires forall l :: l in Maintain(c, op, D).lines ==> (l in E' <==> l in E)
    ensures Maintain(Maintain(c, op, D), op, E') == Maintain(c, op, D + E)
  {
    var c1 := Maintain(c, op, D);
    var c2, c3 := Maintain(c1, op, E'), Maintain(c, op, D + E);
    assert c2.lines == c3.lines;
    if op != Invalidate {
      assert c1.mem.Keys == c.mem.Keys;
      forall l | l in c.mem ensures c2.mem[l] == c3.mem[l] {
        if l in c.lines && !c.lines[l].dirty { assert c.lines[l].data == c.mem[l]; }
      }
    }
    assert c2.mem == c3.mem;
  }
}
