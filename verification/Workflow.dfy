/** The stack-based workflow parser against a direct definition of parents and sequence items. */
module Workflow {
  import opened Common

  /** A matched line: the width of its dash and the blanks after it, its key, and its value. */
  datatype Match = Match(dash: nat, key: string, value: string, scalar: Option<string>)

  /** A line that is neither blank nor a comment. */
  datatype Line = Line(indent: nat, suspicious: bool, matched: Option<Match>)

  datatype Entry = Entry(indent: nat, key: string, value: string, parent: Option<nat>, item: Option<nat>)

  /** The line of an entry, as far as its place in the document depends on it. */
  datatype Kept = Kept(raw: nat, dash: nat, key: string, value: string)
  {
    function Indent(): nat {
      raw + dash
    }

    predicate Opens() {
      value == ""
    }
  }

  predicate StartsBlock(value: string) {
    value == "|" || value == ">" || value == "|-" || value == ">-" || value == "|+" || value == ">+"
  }

  // ---------------------------------------------------------------- which lines count

  predicate InBlock(block: Option<nat>, line: Line) {
    block.Some? && line.indent > block.value
  }

  function KeptLine(line: Line): Kept
    requires line.matched.Some?
  {
    var m := line.matched.value;
    Kept(line.indent, m.dash, m.key, if m.scalar.Some? then m.scalar.value else m.value)
  }

  function BlockAfter(line: Line): Option<nat> {
    if line.matched.Some? && StartsBlock(line.matched.value.value)
    then Some(line.indent + line.matched.value.dash)
    else None
  }

  /** The lines that become entries, once block scalars are skipped. */
  function KeptLines(lines: seq<Line>, block: Option<nat>): seq<Kept> {
    if lines == [] then []
    else if InBlock(block, lines[0]) then KeptLines(lines[1..], block)
    else
      (if lines[0].matched.Some? then [KeptLine(lines[0])] else [])
      + KeptLines(lines[1..], BlockAfter(lines[0]))
  }

  predicate Flawed(line: Line) {
    line.suspicious || line.matched.None? || line.matched.value.scalar.None?
  }

  /** The line starts a block scalar: its value is one of the six markers. */
  ghost predicate Marks(line: Line) {
    && line.matched.Some?
    && var value := line.matched.value.value;
       value == "|" || value == ">" || value == "|-" || value == ">-" || value == "|+" || value == ">+"
  }

  /** Line m starts a block scalar, and every line after it, before end, is indented deeper than its key. */
  ghost predicate HidesUpTo(lines: seq<Line>, m: nat, end: nat)
    requires end <= |lines|
  {
    && m < end && Marks(lines[m])
    && forall k :: m < k < end ==> lines[k].indent > lines[m].indent + lines[m].matched.value.dash
  }

  /** The line belongs to a block scalar, by columns alone: some earlier marker is left of all lines since. */
  ghost predicate Hidden(lines: seq<Line>, n: nat)
    requires n < |lines|
  {
    exists m ::
      0 <= m < n && HidesUpTo(lines, m, n) && lines[n].indent > lines[m].indent + lines[m].matched.value.dash
  }

  /** The column that the parser compares with is the outermost one that still hides. */
  ghost predicate BlockIs(lines: seq<Line>, n: nat, block: Option<nat>)
    requires n <= |lines|
  {
    && (block.Some? ==>
          exists m ::
            0 <= m < n && HidesUpTo(lines, m, n) && lines[m].indent + lines[m].matched.value.dash == block.value)
    && (forall m :: 0 <= m < n && HidesUpTo(lines, m, n) ==>
          block.Some? && block.value <= lines[m].indent + lines[m].matched.value.dash)
  }

  /** Comparing with one column decides by which lines are hidden. */
  lemma BlockMoves(lines: seq<Line>, n: nat, block: Option<nat>)
    requires n < |lines| && BlockIs(lines, n, block)
    ensures InBlock(block, lines[n]) <==> Hidden(lines, n)
    ensures BlockIs(lines, n + 1, if InBlock(block, lines[n]) then block else BlockAfter(lines[n]))
  {
    var next := if InBlock(block, lines[n]) then block else BlockAfter(lines[n]);
    if InBlock(block, lines[n]) {
      var m :| 0 <= m < n && HidesUpTo(lines, m, n) && lines[m].indent + lines[m].matched.value.dash == block.value;
      assert HidesUpTo(lines, m, n + 1);
    } else if Marks(lines[n]) {
      assert HidesUpTo(lines, n, n + 1);
    }
    forall m | 0 <= m <= n && HidesUpTo(lines, m, n + 1)
      ensures next.Some? && next.value <= lines[m].indent + lines[m].matched.value.dash
    {
      if m < n {
        assert HidesUpTo(lines, m, n);
      }
    }
  }

  /** The lines that became entries: all matched lines that no block scalar hides, in order. */
  ghost predicate Sources(lines: seq<Line>, from: seq<nat>, n: nat)
    requires n <= |lines|
  {
    && (forall i :: 0 <= i < |from| ==> from[i] < n)
    && (forall i, j :: 0 <= i < j < |from| ==> from[i] < from[j])
    && (forall k :: 0 <= k < n ==> (k in from <==> lines[k].matched.Some? && !Hidden(lines, k)))
  }

  /** The entry says what its line says. */
  ghost predicate Transcribes(e: Entry, line: Line) {
    && line.matched.Some?
    && e.indent == line.indent + line.matched.value.dash
    && e.key == line.matched.value.key
    && e.value == if line.matched.value.scalar.Some? then line.matched.value.scalar.value else line.matched.value.value
  }

  // ---------------------------------------------------------------- the direct definition

  /** Every line after j, up to i, is indented deeper than the given column. */
  ghost predicate DeeperUpTo(ks: seq<Kept>, j: nat, i: nat, column: nat)
    requires i < |ks|
  {
    forall k :: j < k <= i ==> ks[k].raw > column
  }

  /** j is an empty-valued entry that still encloses i. */
  ghost predicate Encloses(ks: seq<Kept>, j: nat, i: nat)
    requires i < |ks|
  {
    j < i && ks[j].Opens() && DeeperUpTo(ks, j, i, ks[j].Indent())
  }

  /** j starts a sequence item that i belongs to. */
  ghost predicate HoldsItem(ks: seq<Kept>, j: nat, i: nat)
    requires i < |ks|
  {
    j <= i && ks[j].dash > 0 && DeeperUpTo(ks, j, i, ks[j].raw)
  }

  /** The parent of i is the latest entry that encloses it. */
  ghost predicate IsParent(ks: seq<Kept>, i: nat, parent: Option<nat>)
    requires i < |ks|
  {
    match parent
    case None => forall j: nat :: !Encloses(ks, j, i)
    case Some(p) => Encloses(ks, p, i) && forall j: nat :: Encloses(ks, j, i) ==> j <= p
  }

  /** The item of i is the latest sequence start that holds it. */
  ghost predicate IsItem(ks: seq<Kept>, i: nat, item: Option<nat>)
    requires i < |ks|
  {
    match item
    case None => forall j: nat :: !HoldsItem(ks, j, i)
    case Some(s) => HoldsItem(ks, s, i) && forall j: nat :: HoldsItem(ks, j, i) ==> j <= s
  }

  ghost predicate Describes(e: Entry, ks: seq<Kept>, i: nat)
    requires i < |ks|
  {
    && e.indent == ks[i].Indent() && e.key == ks[i].key && e.value == ks[i].value
    && IsParent(ks, i, e.parent)
    && IsItem(ks, i, e.item)
  }

  // ---------------------------------------------------------------- the stacks

  /** j is open after all of ks: nothing after it came back to its column. */
  ghost predicate Open(ks: seq<Kept>, j: nat) {
    j < |ks| && ks[j].Opens() && forall k :: j < k < |ks| ==> ks[k].raw > ks[j].Indent()
  }

  ghost predicate Listed(ks: seq<Kept>, j: nat) {
    j < |ks| && ks[j].dash > 0 && forall k :: j < k < |ks| ==> ks[k].raw > ks[j].raw
  }

  /** The mapping stack lists the open entries, with growing positions and columns. */
  ghost predicate MappingStack(ks: seq<Kept>, mappings: seq<nat>) {
    && (forall a :: 0 <= a < |mappings| ==> mappings[a] < |ks|)
    && (forall j: nat :: j in mappings <==> Open(ks, j))
    && (forall a, b :: 0 <= a < b < |mappings| ==>
          mappings[a] < mappings[b] < |ks| && ks[mappings[a]].Indent() < ks[mappings[b]].Indent())
  }

  ghost predicate ItemStack(ks: seq<Kept>, items: seq<(nat, nat)>) {
    && (forall t :: t in items ==> Listed(ks, t.1) && t.0 == ks[t.1].raw)
    && (forall j: nat :: Listed(ks, j) ==> (ks[j].raw, j) in items)
    && (forall a, b :: 0 <= a < b < |items| ==> items[a].1 < items[b].1 && items[a].0 < items[b].0)
  }

  ghost predicate SameIndents(entries: seq<Entry>, ks: seq<Kept>) {
    |entries| == |ks| && forall i :: 0 <= i < |ks| ==> entries[i].indent == ks[i].Indent()
  }

  /** What is left of the mapping stack when a line at column raw arrives. */
  method PopMappings(entries: seq<Entry>, ghost ks: seq<Kept>, mappings: seq<nat>, raw: nat) returns (rest: seq<nat>)
    requires MappingStack(ks, mappings) && SameIndents(entries, ks)
    ensures rest <= mappings
    ensures forall j :: j in rest <==> j in mappings && ks[j].Indent() < raw
  {
    rest := mappings;
    while rest != [] && entries[rest[|rest| - 1]].indent >= raw
      invariant rest <= mappings
      invariant forall a :: |rest| <= a < |mappings| ==> ks[mappings[a]].Indent() >= raw
      decreases |rest|
    {
      rest := rest[..|rest| - 1];
    }
    forall j | j in mappings && ks[j].Indent() < raw ensures j in rest {
      var a :| 0 <= a < |mappings| && mappings[a] == j;
      assert rest[a] == j;
    }
    forall j | j in rest ensures ks[j].Indent() < raw {
      var a :| 0 <= a < |rest| && rest[a] == j;
      assert mappings[a] == j && mappings[|rest| - 1] == rest[|rest| - 1];
    }
  }

  method PopItems(ghost ks: seq<Kept>, items: seq<(nat, nat)>, raw: nat) returns (rest: seq<(nat, nat)>)
    requires ItemStack(ks, items)
    ensures rest <= items
    ensures forall t :: t in rest <==> t in items && t.0 < raw
  {
    rest := items;
    while rest != [] && rest[|rest| - 1].0 >= raw
      invariant rest <= items
      invariant forall a :: |rest| <= a < |items| ==> items[a].0 >= raw
      decreases |rest|
    {
      rest := rest[..|rest| - 1];
    }
    forall t | t in items && t.0 < raw ensures t in rest {
      var a :| 0 <= a < |items| && items[a] == t;
      assert rest[a] == t;
    }
    forall t | t in rest ensures t.0 < raw {
      var a :| 0 <= a < |rest| && rest[a] == t;
      assert items[a] == t && items[|rest| - 1] == rest[|rest| - 1];
    }
  }

  function Top(mappings: seq<nat>): Option<nat> {
    if mappings == [] then None else Some(mappings[|mappings| - 1])
  }

  function TopItem(items: seq<(nat, nat)>): Option<nat> {
    if items == [] then None else Some(items[|items| - 1].1)
  }

  // ---------------------------------------------------------------- one entry

  lemma OpenBefore(ks: seq<Kept>, next: Kept, j: nat)
    ensures Encloses(ks + [next], j, |ks|) <==> Open(ks, j) && ks[j].Indent() < next.raw
    ensures HoldsItem(ks + [next], j, |ks|) <==>
      (j == |ks| && next.dash > 0) || (Listed(ks, j) && ks[j].raw < next.raw)
  {
    var all := ks + [next];
    assert all[|ks|] == next;
    assert forall k :: 0 <= k < |ks| ==> all[k] == ks[k];
  }

  lemma TopIsParent(ks: seq<Kept>, next: Kept, mappings: seq<nat>, rest: seq<nat>)
    requires MappingStack(ks, mappings) && rest <= mappings
    requires forall j :: j in rest <==> j in mappings && ks[j].Indent() < next.raw
    ensures IsParent(ks + [next], |ks|, Top(rest))
  {
    forall j: nat ensures Encloses(ks + [next], j, |ks|) <==> j in rest {
      OpenBefore(ks, next, j);
    }
    if rest != [] {
      forall j: nat | Encloses(ks + [next], j, |ks|) ensures j <= rest[|rest| - 1] {
        var a :| 0 <= a < |rest| && rest[a] == j;
        assert mappings[a] == j && mappings[|rest| - 1] == rest[|rest| - 1];
      }
    }
  }

  lemma StillOpen(ks: seq<Kept>, next: Kept, j: nat)
    ensures Open(ks + [next], j) <==>
      (j == |ks| && next.Opens()) || (Open(ks, j) && ks[j].Indent() < next.raw)
  {
    var all := ks + [next];
    assert all[|ks|] == next;
    assert forall k :: 0 <= k < |ks| ==> all[k] == ks[k];
  }

  lemma MappingsPushed(ks: seq<Kept>, next: Kept, mappings: seq<nat>, rest: seq<nat>)
    requires MappingStack(ks, mappings) && rest <= mappings
    requires forall j :: j in rest <==> j in mappings && ks[j].Indent() < next.raw
    ensures MappingStack(ks + [next], if next.Opens() then rest + [|ks|] else rest)
  {
    hide Open;
    var all, pushed := ks + [next], if next.Opens() then rest + [|ks|] else rest;
    forall j: nat ensures j in pushed <==> Open(all, j) {
      StillOpen(ks, next, j);
    }
    forall a | 0 <= a < |pushed| ensures pushed[a] < |all| {
      assert a < |rest| ==> pushed[a] == mappings[a];
    }
    forall a, b | 0 <= a < b < |pushed|
      ensures pushed[a] < pushed[b] < |all| && all[pushed[a]].Indent() < all[pushed[b]].Indent()
    {
      var j := mappings[a];
      assert pushed[a] == rest[a] == j && j in rest && all[j] == ks[j];
      if b < |rest| {
        assert pushed[b] == mappings[b] && all[mappings[b]] == ks[mappings[b]];
      } else {
        assert pushed[b] == |ks| && all[|ks|] == next;
      }
    }
  }

  lemma TopIsItem(ks: seq<Kept>, next: Kept, items: seq<(nat, nat)>, rest: seq<(nat, nat)>)
    requires ItemStack(ks, items) && rest <= items
    requires forall t :: t in rest <==> t in items && t.0 < next.raw
    ensures IsItem(ks + [next], |ks|, if next.dash > 0 then Some(|ks|) else TopItem(rest))
  {
    forall j: nat
      ensures HoldsItem(ks + [next], j, |ks|) <==>
        (j == |ks| && next.dash > 0) || (Listed(ks, j) && (ks[j].raw, j) in rest)
    {
      OpenBefore(ks, next, j);
    }
    if next.dash == 0 && rest != [] {
      var top := rest[|rest| - 1];
      assert top in rest;
      forall j: nat | HoldsItem(ks + [next], j, |ks|) ensures j <= top.1 {
        var a :| 0 <= a < |rest| && rest[a] == (ks[j].raw, j);
        assert items[a] == rest[a] && items[|rest| - 1] == top;
      }
    }
  }

  lemma StillListed(ks: seq<Kept>, next: Kept, j: nat)
    ensures Listed(ks + [next], j) <==>
      (j == |ks| && next.dash > 0) || (Listed(ks, j) && ks[j].raw < next.raw)
  {
    var all := ks + [next];
    assert all[|ks|] == next;
    assert forall k :: 0 <= k < |ks| ==> all[k] == ks[k];
  }

  lemma ListedInRange(ks: seq<Kept>, j: nat)
    requires Listed(ks, j)
    ensures j < |ks|
  {
  }

  lemma ItemsPushed(ks: seq<Kept>, next: Kept, items: seq<(nat, nat)>, rest: seq<(nat, nat)>)
    requires ItemStack(ks, items) && rest <= items
    requires forall t :: t in rest <==> t in items && t.0 < next.raw
    ensures ItemStack(ks + [next], if next.dash > 0 then rest + [(next.raw, |ks|)] else rest)
  {
    hide Listed;
    var all, pushed := ks + [next], if next.dash > 0 then rest + [(next.raw, |ks|)] else rest;
    assert forall t :: t in pushed <==> t in rest || (next.dash > 0 && t == (next.raw, |ks|));
    forall j: nat | Listed(all, j) ensures j < |all| {
      ListedInRange(all, j);
    }
    forall t | t in pushed ensures Listed(all, t.1) && t.1 < |all| && t.0 == all[t.1].raw {
      StillListed(ks, next, t.1);
      if t in rest {
        ListedInRange(ks, t.1);
        assert all[t.1] == ks[t.1];
      }
    }
    forall j: nat | j < |all| && Listed(all, j) ensures (all[j].raw, j) in pushed {
      StillListed(ks, next, j);
      if j != |ks| {
        ListedInRange(ks, j);
        assert all[j] == ks[j];
      }
    }
    forall a, b | 0 <= a < b < |pushed| ensures pushed[a].1 < pushed[b].1 && pushed[a].0 < pushed[b].0 {
      assert pushed[a] == rest[a] == items[a] && rest[a] in rest;
      ListedInRange(ks, rest[a].1);
      if b < |rest| {
        assert pushed[b] == items[b];
      }
    }
  }

  /** Later lines do not change what an entry belongs to. */
  lemma DescribesStays(e: Entry, ks: seq<Kept>, next: Kept, i: nat)
    requires i < |ks| && Describes(e, ks, i)
    ensures Describes(e, ks + [next], i)
  {
    var all := ks + [next];
    assert forall k :: 0 <= k < |ks| ==> all[k] == ks[k];
    forall j: nat
      ensures Encloses(all, j, i) <==> Encloses(ks, j, i)
      ensures HoldsItem(all, j, i) <==> HoldsItem(ks, j, i)
    {
    }
  }

  // ---------------------------------------------------------------- the parser

  /** Pops both stacks for the next line, makes its entry, and pushes what it opens. */
  method Place(entries: seq<Entry>, ghost ks: seq<Kept>, next: Kept, mappings: seq<nat>, items: seq<(nat, nat)>)
    returns (entry: Entry, mappings': seq<nat>, items': seq<(nat, nat)>)
    requires SameIndents(entries, ks) && MappingStack(ks, mappings) && ItemStack(ks, items)
    ensures entry.indent == next.Indent() && Describes(entry, ks + [next], |ks|)
    ensures MappingStack(ks + [next], mappings') && ItemStack(ks + [next], items')
  {
    hide Describes, MappingStack, ItemStack, IsParent, IsItem;
    mappings' := PopMappings(entries, ks, mappings, next.raw);
    items' := PopItems(ks, items, next.raw);
    TopIsParent(ks, next, mappings, mappings');
    TopIsItem(ks, next, items, items');
    MappingsPushed(ks, next, mappings, mappings');
    ItemsPushed(ks, next, items, items');
    if next.dash > 0 {
      items' := items' + [(next.raw, |entries|)];
    }
    entry := Entry(next.Indent(), next.key, next.value, Top(mappings'), TopItem(items'));
    Described(entry, ks, next);
    if next.Opens() {
      mappings' := mappings' + [|entries|];
    }
  }

  /** Entries and kept lines correspond. */
  ghost predicate Parsed(entries: seq<Entry>, ks: seq<Kept>) {
    |entries| == |ks| && forall i :: 0 <= i < |entries| ==> Describes(entries[i], ks, i)
  }

  lemma ParsedExtends(entries: seq<Entry>, ks: seq<Kept>, entry: Entry, next: Kept)
    requires Parsed(entries, ks) && Describes(entry, ks + [next], |ks|)
    requires SameIndents(entries, ks) && entry.indent == next.Indent()
    ensures Parsed(entries + [entry], ks + [next]) && SameIndents(entries + [entry], ks + [next])
  {
    hide Describes;
    forall i | 0 <= i < |ks| ensures Describes(entries[i], ks + [next], i) {
      DescribesStays(entries[i], ks, next, i);
    }
  }

  /** Entry j is empty-valued and left of every line from the one after it up to entry i's. */
  ghost predicate Contains(lines: seq<Line>, from: seq<nat>, entries: seq<Entry>, j: nat, i: nat)
    requires i < |entries| == |from| && forall k :: 0 <= k < |from| ==> from[k] < |lines|
  {
    && j < i && entries[j].value == ""
    && forall k :: j < k <= i ==> lines[from[k]].indent > entries[j].indent
  }

  /** The line of entry j starts a sequence item, and every line after it up to entry i's is right of its dash. */
  ghost predicate HoldsLine(lines: seq<Line>, from: seq<nat>, entries: seq<Entry>, j: nat, i: nat)
    requires i < |entries| == |from|
    requires forall k :: 0 <= k < |from| ==> from[k] < |lines| && lines[from[k]].matched.Some?
  {
    && j <= i && lines[from[j]].matched.value.dash > 0
    && forall k :: j < k <= i ==> lines[from[k]].indent > lines[from[j]].indent
  }

  /** Every entry's parent is the latest one that contains it, and its item the latest that holds it. */
  ghost predicate PlacedByColumns(lines: seq<Line>, from: seq<nat>, entries: seq<Entry>)
    requires |entries| == |from| && forall k :: 0 <= k < |from| ==> from[k] < |lines| && lines[from[k]].matched.Some?
  {
    forall i :: 0 <= i < |entries| ==>
      && (entries[i].parent.Some? ==> Contains(lines, from, entries, entries[i].parent.value, i))
      && (forall j: nat :: Contains(lines, from, entries, j, i) ==>
            entries[i].parent.Some? && j <= entries[i].parent.value)
      && (entries[i].item.Some? ==> HoldsLine(lines, from, entries, entries[i].item.value, i))
      && (forall j: nat :: HoldsLine(lines, from, entries, j, i) ==>
            entries[i].item.Some? && j <= entries[i].item.value)
  }

  ghost predicate KeptFrom(lines: seq<Line>, from: seq<nat>, ks: seq<Kept>) {
    |from| == |ks| && forall i :: 0 <= i < |from| ==>
      from[i] < |lines| && lines[from[i]].matched.Some? && ks[i] == KeptLine(lines[from[i]])
  }

  lemma ParsedIsPlaced(lines: seq<Line>, from: seq<nat>, ks: seq<Kept>, entries: seq<Entry>)
    requires Parsed(entries, ks) && KeptFrom(lines, from, ks)
    ensures forall i :: 0 <= i < |entries| ==> Transcribes(entries[i], lines[from[i]])
    ensures PlacedByColumns(lines, from, entries)
  {
    forall i | 0 <= i < |entries| ensures Transcribes(entries[i], lines[from[i]]) {
      assert Describes(entries[i], ks, i);
    }
    forall i, j: nat | 0 <= i < |entries|
      ensures Contains(lines, from, entries, j, i) <==> Encloses(ks, j, i)
      ensures HoldsLine(lines, from, entries, j, i) <==> HoldsItem(ks, j, i)
    {
      if j < i {
        assert Transcribes(entries[j], lines[from[j]]);
      }
      PlaceAlike(lines, from, ks, entries, j, i);
    }
    forall i | 0 <= i < |entries| ensures Describes(entries[i], ks, i) {
    }
  }

  lemma PlaceAlike(lines: seq<Line>, from: seq<nat>, ks: seq<Kept>, entries: seq<Entry>, j: nat, i: nat)
    requires i < |entries| == |from| && KeptFrom(lines, from, ks)
    requires j < i ==> Transcribes(entries[j], lines[from[j]])
    ensures Contains(lines, from, entries, j, i) <==> Encloses(ks, j, i)
    ensures HoldsLine(lines, from, entries, j, i) <==> HoldsItem(ks, j, i)
  {
    if j <= i {
      assert ks[j] == KeptLine(lines[from[j]]);
    }
    assert forall k :: 0 <= k <= i ==> ks[k].raw == lines[from[k]].indent;
  }

  lemma SourcesExtend(lines: seq<Line>, from: seq<nat>, n: nat)
    requires n < |lines| && Sources(lines, from, n)
    ensures Sources(lines, if lines[n].matched.Some? && !Hidden(lines, n) then from + [n] else from, n + 1)
  {
    hide Hidden;
    assert n !in from;
    var more := from + [n];
    assert forall k :: k in more <==> k in from || k == n;
  }

  /**
   Every matched line that no block scalar hides becomes an entry, in order, with the parent and the item that the
   columns give it; the result is incomplete exactly when some line outside block scalars is not fully understood.
   */
  method WorkflowEntries(lines: seq<Line>) returns (entries: seq<Entry>, incomplete: bool, ghost from: seq<nat>)
    ensures incomplete <==>
      exists n ::
        && 0 <= n < |lines| && !Hidden(lines, n)
        && (lines[n].suspicious || lines[n].matched.None? || lines[n].matched.value.scalar.None?)
    ensures Sources(lines, from, |lines|) && |entries| == |from|
    ensures forall i :: 0 <= i < |entries| ==> Transcribes(entries[i], lines[from[i]])
    ensures PlacedByColumns(lines, from, entries)
    ensures Parsed(entries, KeptLines(lines, None))
  {
    hide Hidden, BlockIs, Sources, KeptFrom, PlacedByColumns, Transcribes, Parsed, SameIndents, MappingStack,
      ItemStack, Describes, Flawed, KeptLine;
    entries, incomplete := [], false;
    var mappings: seq<nat> := [];
    var items: seq<(nat, nat)> := [];
    var block: Option<nat> := None;
    ghost var ks: seq<Kept> := [];
    from := [];
    EmptyStacks();
    NothingRead(lines);
    for n := 0 to |lines|
      invariant KeptLines(lines, None) == ks + KeptLines(lines[n..], block)
      invariant incomplete <==> exists k :: 0 <= k < n && !Hidden(lines, k) && Flawed(lines[k])
      invariant BlockIs(lines, n, block) && Sources(lines, from, n) && KeptFrom(lines, from, ks)
      invariant Parsed(entries, ks) && SameIndents(entries, ks)
      invariant MappingStack(ks, mappings) && ItemStack(ks, items)
    {
      var line := lines[n];
      BlockMoves(lines, n, block);
      SourcesExtend(lines, from, n);
      assert lines[n..][1..] == lines[n + 1..];
      if !InBlock(block, line) {
        ghost var more := KeptLines(lines[n + 1..], BlockAfter(line));
        if Flawed(line) {
          incomplete := true;
        }
        if line.matched.Some? {
          var next := KeptLine(line);
          var entry: Entry;
          entry, mappings, items := Place(entries, ks, next, mappings, items);
          ParsedExtends(entries, ks, entry, next);
          assert ks + ([next] + more) == ks + [next] + more;
          KeptExtends(lines, from, ks, n);
          entries, ks, from := entries + [entry], ks + [next], from + [n];
        } else {
          assert ks + ([] + more) == ks + more;
        }
        block := BlockAfter(line);
      }
    }
    assert ks + [] == ks;
    ParsedIsPlaced(lines, from, ks, entries);
    FlawedExactly(lines, incomplete);
    SameLength(lines, from, entries, ks);
  }

  lemma SameLength(lines: seq<Line>, from: seq<nat>, entries: seq<Entry>, ks: seq<Kept>)
    requires KeptFrom(lines, from, ks) && Parsed(entries, ks)
    ensures |entries| == |from| && forall i :: 0 <= i < |from| ==> from[i] < |lines| && lines[from[i]].matched.Some?
  {
  }

  lemma FlawedExactly(lines: seq<Line>, incomplete: bool)
    requires incomplete <==> exists k :: 0 <= k < |lines| && !Hidden(lines, k) && Flawed(lines[k])
    ensures incomplete <==>
      exists n ::
        && 0 <= n < |lines| && !Hidden(lines, n)
        && (lines[n].suspicious || lines[n].matched.None? || lines[n].matched.value.scalar.None?)
  {
    hide Hidden;
  }

  lemma NothingRead(lines: seq<Line>)
    ensures BlockIs(lines, 0, None) && Sources(lines, [], 0) && KeptFrom(lines, [], [])
  {
  }

  lemma KeptExtends(lines: seq<Line>, from: seq<nat>, ks: seq<Kept>, n: nat)
    requires n < |lines| && lines[n].matched.Some? && KeptFrom(lines, from, ks)
    ensures KeptFrom(lines, from + [n], ks + [KeptLine(lines[n])])
  {
  }

  lemma EmptyStacks()
    ensures Parsed([], []) && SameIndents([], []) && MappingStack([], []) && ItemStack([], [])
  {
    assert forall j: nat :: !Open([], j) && !Listed([], j);
  }

  lemma Described(e: Entry, ks: seq<Kept>, next: Kept)
    requires e.indent == next.Indent() && e.key == next.key && e.value == next.value
    requires IsParent(ks + [next], |ks|, e.parent) && IsItem(ks + [next], |ks|, e.item)
    ensures Describes(e, ks + [next], |ks|)
  {
    assert (ks + [next])[|ks|] == next;
  }

  // ---------------------------------------------------------------- checkout inputs

  /** Line f lies inside the sequence item that starts at s. */
  ghost predicate InsideItem(ks: seq<Kept>, s: nat, f: nat) {
    s <= f < |ks| && ks[s].dash > 0 && forall k :: s < k <= f ==> ks[k].raw > ks[s].raw
  }

  predicate Sibling(e: Entry, entry: Entry) {
    e.parent == entry.parent && e.item == entry.item
  }

  function Siblings(entries: seq<Entry>, entry: Entry, key: string): set<nat> {
    set j | 0 <= j < |entries| && Sibling(entries[j], entry) && entries[j].key == key
  }

  function FieldsOf(entries: seq<Entry>, offset: nat): set<nat> {
    set j | 0 <= j < |entries| && entries[j].parent == Some(offset)
  }

  ghost predicate DistinctKeys(entries: seq<Entry>, fields: set<nat>)
    requires forall j :: j in fields ==> j < |entries|
  {
    forall i, j :: i in fields && j in fields && entries[i].key == entries[j].key ==> i == j
  }

  /** Entry j is in the same step as the given one, under this key. */
  ghost predicate InStep(entries: seq<Entry>, entry: Entry, j: nat, key: string) {
    j < |entries| && entries[j].parent == entry.parent && entries[j].item == entry.item && entries[j].key == key
  }

  /** Entry f is directly under the inputs of the step. */
  ghost predicate InputOf(entries: seq<Entry>, entry: Entry, f: nat) {
    && f < |entries| && entries[f].parent.Some?
    && InStep(entries, entry, entries[f].parent.value, "with")
  }

  /** The step is in a list of steps, has one action and at most one input mapping, whose keys do not repeat. */
  ghost predicate Understood(entries: seq<Entry>, entry: Entry) {
    && entry.item.Some? && entry.parent.Some?
    && entry.parent.value < |entries| && entries[entry.parent.value].key == "steps"
    && (exists u: nat :: InStep(entries, entry, u, "uses"))
    && (forall u: nat, v: nat :: InStep(entries, entry, u, "uses") && InStep(entries, entry, v, "uses") ==> u == v)
    && (forall w: nat, v: nat :: InStep(entries, entry, w, "with") && InStep(entries, entry, v, "with") ==> w == v)
    && (forall w: nat :: InStep(entries, entry, w, "with") ==> entries[w].value == "")
    && (forall f: nat, g: nat ::
          InputOf(entries, entry, f) && InputOf(entries, entry, g) && entries[f].key == entries[g].key ==> f == g)
  }

  /** The field chooses what is checked out, from an untrusted value. */
  predicate Names(entries: seq<Entry>, f: nat, untrusted: string -> bool) {
    f < |entries| && (entries[f].key == "ref" || entries[f].key == "repository") && untrusted(entries[f].value)
  }

  /**
   Filters the siblings of a step, then the fields of its inputs, as the source's list comprehensions do: the step is
   flagged exactly when a "ref" or a "repository" among its own inputs has an untrusted value.
   */
  method CheckoutInputs(entries: seq<Entry>, entry: Entry, untrusted: string -> bool)
    returns (incomplete: bool, flagged: bool)
    ensures incomplete <==> !Understood(entries, entry)
    ensures flagged <==>
      && !incomplete
      && exists f: nat ::
           && InputOf(entries, entry, f)
           && (entries[f].key == "ref" || entries[f].key == "repository") && untrusted(entries[f].value)
  {
    if entry.item.None? || entry.parent.None? || entry.parent.value >= |entries|
       || entries[entry.parent.value].key != "steps"
    {
      return true, false;
    }
    var inputs := Siblings(entries, entry, "with");
    OneIsUnique(inputs);
    OneIsUnique(Siblings(entries, entry, "uses"));
    SiblingsAreInStep(entries, entry);
    if |inputs| > 1 || |Siblings(entries, entry, "uses")| != 1 {
      return true, false;
    }
    if inputs == {} {
      NoInputs(entries, entry);
      return false, false;
    }
    var offset :| offset in inputs;
    if entries[offset].value != "" {
      return true, false;
    }
    var read := FieldsOf(entries, offset);
    var keys := set j | j in read :: entries[j].key;
    KeysCount(entries, read);
    FieldsAreInputs(entries, entry, offset);
    if |keys| != |read| {
      return true, false;
    }
    flagged := exists f :: f in read && Names(entries, f, untrusted);
    return false, flagged;
  }

  lemma SiblingsAreInStep(entries: seq<Entry>, entry: Entry)
    ensures forall key, j :: j in Siblings(entries, entry, key) <==> InStep(entries, entry, j, key)
  {
  }

  lemma NoInputs(entries: seq<Entry>, entry: Entry)
    requires Siblings(entries, entry, "with") == {}
    ensures forall f :: !InputOf(entries, entry, f)
  {
    SiblingsAreInStep(entries, entry);
  }

  lemma FieldsAreInputs(entries: seq<Entry>, entry: Entry, offset: nat)
    requires forall w :: InStep(entries, entry, w, "with") <==> w == offset
    ensures forall f :: f in FieldsOf(entries, offset) <==> InputOf(entries, entry, f)
  {
  }

  lemma OneIsUnique(s: set<nat>)
    ensures |s| <= 1 <==> forall x, y :: x in s && y in s ==> x == y
    ensures |s| >= 1 <==> exists x :: x in s
  {
    if s != {} {
      var x :| x in s;
      if forall y, z :: y in s && z in s ==> y == z {
        assert s == {x};
      }
      if |s| <= 1 {
        AtMostOne(s, x);
      }
    }
  }

  lemma AtMostOne(s: set<nat>, x: nat)
    requires |s| <= 1 && x in s
    ensures s == {x}
  {
    assert |s - {x}| == |s| - 1;
  }

  /** Counting distinct keys decides whether they are distinct. */
  lemma {:induction false} KeysCount(entries: seq<Entry>, fields: set<nat>)
    requires forall j :: j in fields ==> j < |entries|
    ensures |set j | j in fields :: entries[j].key| <= |fields|
    ensures |set j | j in fields :: entries[j].key| == |fields| <==> DistinctKeys(entries, fields)
    decreases |fields|
  {
    var keys := set j | j in fields :: entries[j].key;
    if fields != {} {
      var x :| x in fields;
      var rest := fields - {x};
      var others := set j | j in rest :: entries[j].key;
      KeysCount(entries, rest);
      assert keys == others + {entries[x].key};
      if entries[x].key in others {
        assert keys == others;
      } else {
        assert |keys| == |others| + 1;
      }
    }
  }

  /** A checkout step only reads inputs of its own step: every field lies inside the step's sequence item. */
  lemma InputsAreInsideTheStep(entries: seq<Entry>, ks: seq<Kept>, i: nat, f: nat)
    requires Parsed(entries, ks) && i < |entries| && Understood(entries, entries[i])
    requires InputOf(entries, entries[i], f)
    ensures
      var step := entries[i].item.value;
      f < |ks| && step < f && InsideItem(ks, step, i) && InsideItem(ks, step, f)
  {
    hide Parsed, Encloses;
    var w, s := entries[f].parent.value, entries[i].item.value;
    ItemHolds(entries, ks, i);
    ItemHolds(entries, ks, w);
    ParentEncloses(entries, ks, f);
    HeldBelow(ks, s, w, f);
  }

  lemma ItemHolds(entries: seq<Entry>, ks: seq<Kept>, i: nat)
    requires Parsed(entries, ks) && i < |entries| && entries[i].item.Some?
    ensures |entries| == |ks| && HoldsItem(ks, entries[i].item.value, i)
  {
    assert Describes(entries[i], ks, i);
  }

  lemma ParentEncloses(entries: seq<Entry>, ks: seq<Kept>, i: nat)
    requires Parsed(entries, ks) && i < |entries| && entries[i].parent.Some?
    ensures Encloses(ks, entries[i].parent.value, i)
  {
    assert Describes(entries[i], ks, i);
  }

  /** What an entry of an item encloses is inside the item too. */
  lemma HeldBelow(ks: seq<Kept>, s: nat, w: nat, f: nat)
    requires f < |ks| && w < |ks| && HoldsItem(ks, s, w) && Encloses(ks, w, f)
    ensures s < f && InsideItem(ks, s, f)
  {
    forall k | s < k <= f ensures ks[k].raw > ks[s].raw {
      if k > w {
        assert ks[k].raw > ks[w].Indent();
      }
    }
  }
}
