/** The expression-parameter table and its allocation into carried-over, generated and
    placeholder blocks. */
module ExpressionParams {
  import opened Naming

  /** Value type of an expression parameter. */
  datatype ValueType = Int | Float | Bool

  /** An expression parameter: a name (blank for an unused entry) and a value type. */
  datatype Param = Param(name: string, valueType: ValueType)

  /** The fixed number of expression parameters the avatar supports. */
  const Capacity: nat := 16

  /** An expression-parameters asset; its table may be missing. */
  class ExpressionParameters {
    var parameters: array?<Param>

    /** A freshly created asset, with no table yet. */
    constructor Empty()
      ensures parameters == null
    {
      parameters := null;
    }

    /** A copy of a basis asset: same table contents, in a table of its own. */
    constructor CopyOf(basis: ExpressionParameters)
      ensures basis.parameters == null ==> parameters == null
      ensures basis.parameters != null ==>
                parameters != null && fresh(parameters) && parameters[..] == basis.parameters[..]
    {
      var src := basis.parameters;
      if src == null {
        parameters := null;
      } else {
        parameters := new Param[src.Length](i reads src requires 0 <= i < src.Length => src[i]);
      }
    }

    /** The entries of the table, none when it is missing. */
    function Entries(): (entries: seq<Param>)
      reads this, parameters
    {
      if parameters == null then [] else parameters[..]
    }

    /** Allocates the slot parameters: gathers the named parameters, checks the capacity, and on
        success replaces the table by a new full-capacity one laid out in three blocks. On a
        capacity error the table is left as it was. */
    method AllocateSlots(slotCount: nat) returns (outcome: Allocation)
      modifies this
      ensures var carried := NamedParams(old(Entries()));
        && (outcome.Exceeded? <==> slotCount + |carried| > Capacity)
        && (outcome.Exceeded? ==>
              outcome.maxSlots == Capacity - |carried| && parameters == old(parameters))
        && (outcome.Allocated? ==>
              outcome.carried == carried && parameters != null && fresh(parameters) &&
              LaidOut(parameters[..], carried, slotCount))
    {
      var carried := CollectNamedParams(parameters);
      if slotCount + |carried| > Capacity {
        return Exceeded(Capacity - |carried|);
      }
      var table := new Param[Capacity];
      FillTable(table, carried, slotCount);
      parameters := table;
      outcome := Allocated(carried);
    }
  }

  /** Writes the three blocks of a new table, by index: carried, generated, placeholders. */
  method FillTable(table: array<Param>, carried: seq<Param>, n: nat)
    requires table.Length == Capacity && |carried| + n <= Capacity
    modifies table
    ensures LaidOut(table[..], carried, n)
  {
    WriteCarried(table, carried);
    WriteGenerated(table, carried, n);
    WritePlaceholders(table, |carried| + n);
    LaidOutOfBlocks(table[..], carried, n);
  }

  /** The first block: the carried-over parameters, entry by entry. */
  method WriteCarried(table: array<Param>, carried: seq<Param>)
    requires |carried| <= table.Length
    modifies table
    ensures table[..|carried|] == carried
  {
    for i := 0 to |carried|
      invariant table[..i] == carried[..i]
    {
      table[i] := carried[i];
      assert table[..i + 1] == table[..i] + [table[i]];
    }
  }

  /** The second block: `GenInventorySlot{j}` as an Int parameter at entry `|carried| + j`. */
  method WriteGenerated(table: array<Param>, carried: seq<Param>, n: nat)
    requires |carried| + n <= table.Length
    requires table[..|carried|] == carried
    modifies table
    ensures table[..|carried| + n] == carried + GeneratedParams(n)
    ensures forall j :: |carried| + n <= j < table.Length ==> table[j] == old(table[j])
  {
    var k := |carried|;
    for i := k to k + n
      invariant table[..i] == carried + GeneratedParams(i - k)
      invariant forall j :: i <= j < table.Length ==> table[j] == old(table[j])
    {
      var generated := Param(SlotParamName(i - k), Int);
      table[i] := generated;
      assert GeneratedParams(i + 1 - k) == GeneratedParams(i - k) + [generated];
      assert table[..i + 1] == table[..i] + [generated];
    }
  }

  /** The third block: placeholders from entry `from` to the end. */
  method WritePlaceholders(table: array<Param>, from: nat)
    requires from <= table.Length
    modifies table
    ensures table[..from] == old(table[..from])
    ensures forall j :: from <= j < table.Length ==> table[j] == Placeholder
  {
    for i := from to table.Length
      invariant forall j :: 0 <= j < from ==> table[j] == old(table[j])
      invariant forall j :: from <= j < i ==> table[j] == Placeholder
    {
      table[i] := Placeholder;
    }
  }

  /** A full-capacity table whose front is the carried block then the generated block, and
      whose rest is placeholders, is laid out. */
  lemma LaidOutOfBlocks(ps: seq<Param>, carried: seq<Param>, n: nat)
    requires |ps| == Capacity && |carried| + n <= Capacity
    requires ps[..|carried| + n] == carried + GeneratedParams(n)
    requires forall j :: |carried| + n <= j < Capacity ==> ps[j] == Placeholder
    ensures LaidOut(ps, carried, n)
  {
    var k := |carried|;
    forall j | 0 <= j < k + n
      ensures ps[j] == (carried + GeneratedParams(n))[j]
    {
      assert ps[j] == ps[..k + n][j];
    }
  }

  /** What the allocator did: the carried-over parameters, or the capacity error carrying the
      number of slots that would still have fit (the figure the error message reports). */
  datatype Allocation = Allocated(carried: seq<Param>) | Exceeded(maxSlots: int)

  /** An unused entry. */
  const Placeholder: Param := Param("", Float)

  /** The named parameters of a table, in order, each copied by name and type. */
  function NamedParams(ps: seq<Param>): (named: seq<Param>)
    decreases |ps|
  {
    if ps == [] then []
    else
      var last := ps[|ps| - 1];
      if last.name == "" then NamedParams(ps[..|ps| - 1])
      else NamedParams(ps[..|ps| - 1]) + [Param(last.name, last.valueType)]
  }

  /** The carried-over parameters are exactly the named ones, and a table without blank names
      is carried over whole and in order. */
  lemma {:induction false} NamedParamsFilter(ps: seq<Param>)
    ensures forall p :: p in NamedParams(ps) <==> p in ps && p.name != ""
    ensures |NamedParams(ps)| <= |ps|
    ensures (forall k :: 0 <= k < |ps| ==> ps[k].name != "") ==> NamedParams(ps) == ps
    decreases |ps|
  {
    if ps != [] {
      var init := ps[..|ps| - 1];
      NamedParamsFilter(init);
      assert ps == init + [ps[|ps| - 1]];
    }
  }

  /** The number of entries of a table with a non-blank name, counted from the front. */
  function NamedCount(ps: seq<Param>): (c: nat)
    ensures c <= |ps|
    decreases |ps|
  {
    if ps == [] then 0 else (if ps[0].name == "" then 0 else 1) + NamedCount(ps[1..])
  }

  /** Counting over a table split at `k` adds the counts of both parts. */
  lemma {:induction false} NamedCountSplit(ps: seq<Param>, k: nat)
    requires k <= |ps|
    ensures NamedCount(ps) == NamedCount(ps[..k]) + NamedCount(ps[k..])
    decreases k
  {
    if k == 0 {
      assert ps[..0] == [] && ps[0..] == ps;
    } else {
      assert ps[..k][1..] == ps[1..][..k - 1];
      assert ps[k..] == ps[1..][k - 1..];
      NamedCountSplit(ps[1..], k - 1);
    }
  }

  /** The carried-over parameters are the named entries, each exactly once and in table order:
      a named entry sits at the position given by the number of named entries before it. */
  lemma {:induction false} NamedParamsInOrder(ps: seq<Param>)
    ensures |NamedParams(ps)| == NamedCount(ps)
    ensures forall k :: 0 <= k < |ps| && ps[k].name != "" ==>
              NamedCount(ps[..k]) < |NamedParams(ps)| &&
              NamedParams(ps)[NamedCount(ps[..k])] == Param(ps[k].name, ps[k].valueType)
    decreases |ps|
  {
    if ps != [] {
      var n := |ps| - 1;
      var init, p := ps[..n], ps[n];
      NamedParamsInOrder(init);
      NamedCountSplit(ps, n);
      assert ps[n..] == [p] && [p][1..] == [];
      forall k | 0 <= k < |ps| && ps[k].name != ""
        ensures NamedCount(ps[..k]) < |NamedParams(ps)| &&
                NamedParams(ps)[NamedCount(ps[..k])] == Param(ps[k].name, ps[k].valueType)
      {
        if k < n {
          assert ps[..k] == init[..k] && init[k] == ps[k];
        } else {
          assert ps[..k] == init;
        }
      }
    }
  }

  /** The generated block: one Int parameter per slot, named after its slot index. */
  function GeneratedParams(n: nat): (gs: seq<Param>)
    ensures |gs| == n
    ensures forall i :: 0 <= i < n ==> gs[i] == Param(SlotParamName(i), Int)
    decreases n
  {
    if n == 0 then [] else GeneratedParams(n - 1) + [Param(SlotParamName(n - 1), Int)]
  }

  /** A full table: the carried-over parameters, then the generated ones, then placeholders. */
  ghost predicate LaidOut(ps: seq<Param>, carried: seq<Param>, n: nat) {
    && |ps| == Capacity
    && |carried| + n <= Capacity
    && (forall j :: 0 <= j < |carried| ==> ps[j] == carried[j])
    && (forall j :: |carried| <= j < |carried| + n ==> ps[j] == Param(SlotParamName(j - |carried|), Int))
    && (forall j :: |carried| + n <= j < Capacity ==> ps[j] == Placeholder)
  }

  /** Reading the named parameters back out of a new table gives the carried-over block
      followed by the generated block: the placeholders are the only blank entries. */
  lemma NamedParamsOfLayout(ps: seq<Param>, carried: seq<Param>, n: nat)
    requires LaidOut(ps, carried, n)
    requires forall p :: p in carried ==> p.name != ""
    ensures NamedParams(ps) == carried + GeneratedParams(n)
  {
    var k := |carried|;
    var used := carried + GeneratedParams(n);
    forall j | 0 <= j < k + n ensures ps[j] == used[j] && used[j].name != "" {
      if j < k {
        assert used[j] == carried[j] && carried[j] in carried;
      } else {
        assert used[j] == GeneratedParams(n)[j - k];
        SlotParamNameDistinct(j - k, j - k);
      }
    }
    assert ps[..k + n] == used;
    NamedParamsFilter(used);
    NamedParamsBlankTail(ps, k + n);
  }

  /** Blank entries at the end of a table add nothing to its named parameters. */
  lemma {:induction false} NamedParamsBlankTail(ps: seq<Param>, m: nat)
    requires m <= |ps|
    requires forall j :: m <= j < |ps| ==> ps[j].name == ""
    ensures NamedParams(ps) == NamedParams(ps[..m])
    decreases |ps|
  {
    if |ps| > m {
      assert ps[..|ps| - 1][..m] == ps[..m];
      NamedParamsBlankTail(ps[..|ps| - 1], m);
    } else {
      assert ps[..m] == ps;
    }
  }

  /** Gathers the named parameters of a (possibly missing) table, entry by entry. */
  method CollectNamedParams(table: array?<Param>) returns (carried: seq<Param>)
    ensures carried == NamedParams(if table == null then [] else table[..])
  {
    carried := [];
    if table != null {
      for i := 0 to table.Length
        invariant carried == NamedParams(table[..i])
      {
        assert table[..i + 1][..i] == table[..i];
        var param := table[i];
        if param.name != "" {
          carried := carried + [Param(param.name, param.valueType)];
        }
      }
      assert table[..table.Length] == table[..];
    }
  }
}
