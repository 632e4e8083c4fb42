/**
 * Day 6 (06/06.py): answers grouped by blank lines, and the number of
 * questions anyone in a group answered.
 */
module Customs {
  import Py

  type Group = seq<string>

  /** The state of `parse_input`'s loop: the closed groups and the open one. */
  datatype Scan = Scan(groups: seq<Group>, group: Group)

  /** One iteration: a whitespace line closes the open group, any other line joins it stripped. */
  function Step(st: Scan, line: string): Scan {
    if Py.IsSpace(line) then Scan(st.groups + [st.group], []) else Scan(st.groups, st.group + [Py.RStrip(line)])
  }

  function Collect(lines: seq<string>): Scan {
    if lines == [] then Scan([], []) else Step(Collect(lines[..|lines| - 1]), lines[|lines| - 1])
  }

  /** The groups of `parse_input`: the closed ones, plus the open one when it is non-empty. */
  function Groups(lines: seq<string>): seq<Group> {
    var st := Collect(lines);
    if st.group != [] then st.groups + [st.group] else st.groups
  }

  /** `parse_input`, with its loop. */
  method ParseInput(lines: seq<string>) returns (groups: seq<Group>)
    ensures groups == Groups(lines)
  {
    groups := [];
    var group: Group := [];
    for i := 0 to |lines|
      invariant Collect(lines[..i]) == Scan(groups, group)
    {
      assert lines[..i + 1][..i] == lines[..i];
      if Py.IsSpace(lines[i]) {
        groups := groups + [group];
        group := [];
      } else {
        group := group + [Py.RStrip(lines[i])];
      }
    }
    assert lines[..|lines|] == lines;
    if group != [] {
      groups := groups + [group];
    }
  }

  function RStripAll(lines: seq<string>): (r: seq<string>)
    ensures |r| == |lines| && forall i :: 0 <= i < |lines| ==> r[i] == Py.RStrip(lines[i])
  {
    seq(|lines|, i requires 0 <= i < |lines| => Py.RStrip(lines[i]))
  }

  predicate NoBlank(lines: seq<string>) {
    forall i :: 0 <= i < |lines| ==> !Py.IsSpace(lines[i])
  }

  /** Lines with no blank among them form one open group of their stripped forms. */
  lemma {:induction false} CollectGroup(lines: seq<string>)
    requires NoBlank(lines)
    ensures Collect(lines) == Scan([], RStripAll(lines))
  {
    if lines != [] {
      var init := lines[..|lines| - 1];
      CollectGroup(init);
      assert RStripAll(lines) == RStripAll(init) + [Py.RStrip(lines[|lines| - 1])];
    }
  }

  /** After a blank line the scan starts afresh: later groups are appended independently. */
  lemma {:induction false} CollectConcat(a: seq<string>, b: seq<string>)
    requires Collect(a).group == []
    ensures Collect(a + b) == Scan(Collect(a).groups + Collect(b).groups, Collect(b).group)
  {
    if b == [] {
      assert a + b == a;
    } else {
      var b0, l := b[..|b| - 1], b[|b| - 1];
      assert (a + b)[..|a + b| - 1] == a + b0;
      assert (a + b)[|a + b| - 1] == l;
      CollectConcat(a, b0);
      var st := Collect(b0);
      assert Collect(a).groups + st.groups + [st.group] == Collect(a).groups + (st.groups + [st.group]);
    }
  }

  /** A non-empty final group is kept although no blank line follows it. */
  lemma LastGroupKept(lines: seq<string>)
    requires lines != [] && NoBlank(lines)
    ensures Groups(lines) == [RStripAll(lines)]
  {
    CollectGroup(lines);
  }

  /** Groups separated by one blank line come out as two groups of stripped lines. */
  lemma TwoGroups(a: seq<string>, b: seq<string>, blank: string)
    requires a != [] && NoBlank(a) && b != [] && NoBlank(b) && Py.IsSpace(blank)
    ensures Groups(a + [blank] + b) == [RStripAll(a), RStripAll(b)]
  {
    var a1 := a + [blank];
    CollectGroup(a);
    assert a1[..|a1| - 1] == a;
    assert Collect(a1) == Scan([RStripAll(a)], []);
    CollectConcat(a1, b);
    CollectGroup(b);
  }

  /** Every character answered by someone in the group. */
  function Union(group: Group): set<char> {
    if group == [] then {} else Union(group[..|group| - 1]) + CharsOf(group[|group| - 1])
  }

  /** A character is in the union exactly when some line of the group contains it. */
  lemma {:induction false} UnionMembers(group: Group)
    ensures forall c :: c in Union(group) <==> exists i :: 0 <= i < |group| && c in group[i]
  {
    if group != [] {
      var init := group[..|group| - 1];
      UnionMembers(init);
      assert forall i :: 0 <= i < |init| ==> init[i] == group[i];
    }
  }

  function CharsOf(s: string): (cs: set<char>)
    ensures forall c :: c in cs <==> c in s
  {
    set i | 0 <= i < |s| :: s[i]
  }

  /** `get_union_count`: the number of distinct characters across the group's lines. */
  function UnionCount(group: Group): (n: nat)
    ensures group == [] ==> n == 0
  {
    |Union(group)|
  }

  lemma UnionSnoc(g: Group, s: string)
    ensures Union(g + [s]) == Union(g) + CharsOf(s)
  {
    assert (g + [s])[..|g|] == g;
  }

  /** The union counts of the sample groups are [3, 3, 3, 1, 1] (06/06.py:22-33). */
  lemma SampleUnionCount1()
    ensures UnionCount(["abc"]) == 3
  {
    assert CharsOf("abc") == {'a', 'b', 'c'};
    UnionSnoc([], "abc");
    assert [] + ["abc"] == ["abc"];
    assert Union(["abc"]) == {'a', 'b', 'c'};
  }

  lemma SampleUnionCount2()
    ensures UnionCount(["a", "b", "c"]) == 3
  {
    assert CharsOf("a") == {'a'} && CharsOf("b") == {'b'} && CharsOf("c") == {'c'};
    UnionSnoc([], "a");
    UnionSnoc(["a"], "b");
    UnionSnoc(["a", "b"], "c");
    assert [] + ["a"] == ["a"] && ["a"] + ["b"] == ["a", "b"] && ["a", "b"] + ["c"] == ["a", "b", "c"];
  }

  lemma SampleUnionCount3()
    ensures UnionCount(["ab", "ac"]) == 3
  {
    assert CharsOf("ab") == {'a', 'b'} && CharsOf("ac") == {'a', 'c'};
    UnionSnoc([], "ab");
    UnionSnoc(["ab"], "ac");
    assert [] + ["ab"] == ["ab"] && ["ab"] + ["ac"] == ["ab", "ac"];
    assert Union(["ab", "ac"]) == {'a', 'b', 'c'};
  }

  lemma SampleUnionCount4()
    ensures UnionCount(["a", "a", "a", "a"]) == 1
  {
    assert CharsOf("a") == {'a'};
    UnionSnoc([], "a");
    UnionSnoc(["a"], "a");
    UnionSnoc(["a", "a"], "a");
    UnionSnoc(["a", "a", "a"], "a");
    assert [] + ["a"] == ["a"] && ["a"] + ["a"] == ["a", "a"] && ["a", "a"] + ["a"] == ["a", "a", "a"];
    assert ["a", "a", "a"] + ["a"] == ["a", "a", "a", "a"];
  }

  lemma SampleUnionCount5()
    ensures UnionCount(["b"]) == 1
  {
    assert CharsOf("b") == {'b'};
    UnionSnoc([], "b");
    assert [] + ["b"] == ["b"];
  }
}
