/** How two raters' labels fall into a two-by-two table. */
module LabelTable {
  function CountTrue(labels: seq<bool>): nat {
    if labels == [] then 0 else (if labels[0] then 1 else 0) + CountTrue(labels[1..])
  }

  function CountEqual(human: seq<bool>, judge: seq<bool>): nat
    requires |human| == |judge|
  {
    if human == [] then 0 else (if human[0] == judge[0] then 1 else 0) + CountEqual(human[1..], judge[1..])
  }

  datatype Table = Table(both: nat, humanOnly: nat, judgeOnly: nat, neither: nat) {
    function Size(): nat { both + humanOnly + judgeOnly + neither }
  }

  function Tabulate(human: seq<bool>, judge: seq<bool>): Table
    requires |human| == |judge|
  {
    if human == [] then Table(0, 0, 0, 0)
    else Counted(human[0], judge[0], Tabulate(human[1..], judge[1..]))
  }

  function Counted(human: bool, judge: bool, rest: Table): Table {
    if human && judge then rest.(both := rest.both + 1)
    else if human then rest.(humanOnly := rest.humanOnly + 1)
    else if judge then rest.(judgeOnly := rest.judgeOnly + 1)
    else rest.(neither := rest.neither + 1)
  }

  lemma {:induction false} TableSize(human: seq<bool>, judge: seq<bool>)
    requires |human| == |judge|
    ensures Tabulate(human, judge).Size() == |human|
  {
    if human != [] { TableSize(human[1..], judge[1..]); }
  }

  lemma {:induction false} HumanRow(human: seq<bool>, judge: seq<bool>)
    requires |human| == |judge|
    ensures CountTrue(human) == Tabulate(human, judge).both + Tabulate(human, judge).humanOnly
  {
    if human != [] { HumanRow(human[1..], judge[1..]); }
  }

  lemma {:induction false} JudgeColumn(human: seq<bool>, judge: seq<bool>)
    requires |human| == |judge|
    ensures CountTrue(judge) == Tabulate(human, judge).both + Tabulate(human, judge).judgeOnly
  {
    if human != [] { JudgeColumn(human[1..], judge[1..]); }
  }

  lemma {:induction false} Diagonal(human: seq<bool>, judge: seq<bool>)
    requires |human| == |judge|
    ensures CountEqual(human, judge) == Tabulate(human, judge).both + Tabulate(human, judge).neither
  {
    if human != [] { Diagonal(human[1..], judge[1..]); }
  }

  lemma {:induction false} NoDisagreement(human: seq<bool>, judge: seq<bool>)
    requires |human| == |judge|
    ensures Tabulate(human, judge).humanOnly == 0 == Tabulate(human, judge).judgeOnly <==> human == judge
  {
    if human != [] {
      NoDisagreement(human[1..], judge[1..]);
      assert human == [human[0]] + human[1..] && judge == [judge[0]] + judge[1..];
    }
  }

  lemma {:induction false} EqualIsMutual(human: seq<bool>, judge: seq<bool>)
    requires |human| == |judge|
    ensures CountEqual(human, judge) == CountEqual(judge, human)
  {
    if human != [] { EqualIsMutual(human[1..], judge[1..]); }
  }

  /** What the two raters said of each item. */
  function Pairs(human: seq<bool>, judge: seq<bool>): seq<(bool, bool)>
    requires |human| == |judge|
  {
    seq(|human|, i requires 0 <= i < |human| => (human[i], judge[i]))
  }

  lemma OneMorePair(pairs: seq<(bool, bool)>, first: (bool, bool), kind: (bool, bool))
    ensures multiset([first] + pairs)[kind] == multiset(pairs)[kind] + if first == kind then 1 else 0
  {}

  /** The cells count the items of each kind. */
  lemma {:induction false} CellsCountPairs(human: seq<bool>, judge: seq<bool>)
    requires |human| == |judge|
    ensures var t, items := Tabulate(human, judge), multiset(Pairs(human, judge));
            && t.both == items[(true, true)] && t.humanOnly == items[(true, false)]
            && t.judgeOnly == items[(false, true)] && t.neither == items[(false, false)]
  {
    if human != [] {
      var first, rest := (human[0], judge[0]), Pairs(human[1..], judge[1..]);
      CellsCountPairs(human[1..], judge[1..]);
      assert Pairs(human, judge) == [first] + rest;
      OneMorePair(rest, first, (true, true));
      OneMorePair(rest, first, (true, false));
      OneMorePair(rest, first, (false, true));
      OneMorePair(rest, first, (false, false));
    }
  }
}
