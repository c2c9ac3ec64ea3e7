/** The shape every tree dump has (src/parser/tree.rs): one line per node,
    `label(count)`, indented by `. ` once per level, followed by the lines of
    its children one level deeper. A `Dump` is that shape without the text;
    `Render` writes it out. The renderers in `Tree` are proved to be `Render`
    of a dump, so what is proved here about `Render` holds for all of them. */
module Dump {
  import opened Decimal

  /** `". ".repeat(level)`. */
  function Indent(level: nat): (s: string)
    ensures |s| == 2 * level
  {
    if level == 0 then "" else ". " + Indent(level - 1)
  }

  /** One node of a dump: its label, the count printed after it, the nodes
      printed under it, and whether its line is printed without indent. */
  datatype Dump = Dump(tag: string, count: nat, kids: seq<Dump>, flush: bool)

  /** A node whose count is its number of children. */
  function Node(tag: string, kids: seq<Dump>): Dump {
    Dump(tag, |kids|, kids, false)
  }

  /** A value printed as `text(0)`. */
  function Leaf(text: string): Dump {
    Dump(text, 0, [], false)
  }

  /** The line of node `d` at `level`. */
  function HeaderLine(d: Dump, level: nat): string {
    (if d.flush then "" else Indent(level)) + d.tag + "(" + NatToString(d.count) + ")"
  }

  /** The lines of `d` at `level`: its own line, then its children's. */
  function Render(d: Dump, level: nat): (r: seq<string>)
    ensures |r| >= 1 && r[0] == HeaderLine(d, level)
  {
    [HeaderLine(d, level)] + RenderAll(d.kids, level + 1)
  }

  /** The lines of `ds` at `level`, one dump after the other. */
  function RenderAll(ds: seq<Dump>, level: nat): seq<string> {
    if ds == [] then [] else Render(ds[0], level) + RenderAll(ds[1..], level)
  }

  /** The number of nodes in `d`. */
  function Size(d: Dump): nat {
    1 + SizeAll(d.kids)
  }

  function SizeAll(ds: seq<Dump>): nat {
    if ds == [] then 0 else Size(ds[0]) + SizeAll(ds[1..])
  }

  /** Every count printed is the number of children printed under it. */
  predicate Counted(d: Dump) {
    d.count == |d.kids| && forall k | k in d.kids :: Counted(k)
  }

  /** No line of the dump is printed without its indent. */
  predicate Indented(d: Dump) {
    !d.flush && forall k | k in d.kids :: Indented(k)
  }

  /** Each line one level deeper. */
  function Deeper(lines: seq<string>): (r: seq<string>)
    ensures |r| == |lines|
    ensures forall i :: 0 <= i < |lines| ==> r[i] == ". " + lines[i]
  {
    seq(|lines|, i requires 0 <= i < |lines| => ". " + lines[i])
  }

  lemma RenderAllAppend(xs: seq<Dump>, ys: seq<Dump>, level: nat)
    ensures RenderAll(xs + ys, level) == RenderAll(xs, level) + RenderAll(ys, level)
    decreases |xs|
  {
    if xs == [] {
      assert xs + ys == ys;
    } else {
      assert (xs + ys)[1..] == xs[1..] + ys;
      RenderAllAppend(xs[1..], ys, level);
    }
  }

  lemma RenderAllOne(d: Dump, level: nat)
    ensures RenderAll([d], level) == Render(d, level)
  {
    assert [d][1..] == [];
  }

  /** A dump prints one line per node. */
  lemma {:induction false} RenderSize(d: Dump, level: nat)
    ensures |Render(d, level)| == Size(d)
    decreases d, 1
  {
    RenderAllSize(d.kids, level + 1);
  }

  lemma {:induction false} RenderAllSize(ds: seq<Dump>, level: nat)
    ensures |RenderAll(ds, level)| == SizeAll(ds)
    decreases ds, 0
  {
    if ds != [] {
      RenderSize(ds[0], level);
      RenderAllSize(ds[1..], level);
    }
  }

  lemma DeeperAppend(a: seq<string>, b: seq<string>)
    ensures Deeper(a + b) == Deeper(a) + Deeper(b)
  {
  }

  /** Printing a dump that has no unindented line one level deeper is
      printing it at its own level with one more `. ` in front of every
      line: the level moves the whole tree and changes nothing else. */
  lemma {:induction false} RenderDeeper(d: Dump, level: nat)
    requires Indented(d)
    ensures Render(d, level + 1) == Deeper(Render(d, level))
    decreases d, 1
  {
    assert HeaderLine(d, level + 1) == ". " + HeaderLine(d, level);
    RenderAllDeeper(d.kids, level + 1);
    DeeperAppend([HeaderLine(d, level)], RenderAll(d.kids, level + 1));
  }

  lemma {:induction false} RenderAllDeeper(ds: seq<Dump>, level: nat)
    requires forall k | k in ds :: Indented(k)
    ensures RenderAll(ds, level + 1) == Deeper(RenderAll(ds, level))
    decreases ds, 0
  {
    if ds != [] {
      RenderDeeper(ds[0], level);
      RenderAllDeeper(ds[1..], level);
      DeeperAppend(Render(ds[0], level), RenderAll(ds[1..], level));
    }
  }

  /** An unindented line stays where it is whatever the level: the first line
      of a flush node is the same at every level. */
  lemma FlushIgnoresLevel(d: Dump, level: nat)
    requires d.flush
    ensures Render(d, level)[0] == Render(d, 0)[0] == d.tag + "(" + NatToString(d.count) + ")"
  {
  }
}
