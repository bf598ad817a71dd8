/** Splitting the flat attribute list of a wasm event back into messages: src/util/helpers.ts. */
module WasmAttributes {

  datatype Attribute = Attribute(key: string, value: string)

  type Message = seq<Attribute>

  // `Threw` is the TypeError raised when an index runs past the attributes.
  datatype SplitResult = Messages(messages: seq<Message>) | Threw

  const ACTION := "action"

  predicate FirstWith(attributes: seq<Attribute>, key: string, i: int) {
    0 <= i < |attributes| && attributes[i].key == key && forall j :: 0 <= j < i ==> attributes[j].key != key
  }

  // Value of the first attribute with the key, the empty string when there is none.
  function GetWasmAttr(attributes: seq<Attribute>, key: string): (value: string)
    ensures value != "" ==> Attribute(key, value) in attributes
    ensures (forall i :: 0 <= i < |attributes| ==> attributes[i].key != key) ==> value == ""
    ensures forall i :: FirstWith(attributes, key, i) ==> value == attributes[i].value
  {
    if attributes == [] then ""
    else if attributes[0].key == key then attributes[0].value
    else
      assert forall i :: FirstWith(attributes, key, i) ==> FirstWith(attributes[1..], key, i - 1);
      GetWasmAttr(attributes[1..], key)
  }

  // -------------------------------------------------------------------------
  // The two ways of grouping
  // -------------------------------------------------------------------------

  // Sequential: a new group starts at every "action".
  function AddAttribute(groups: seq<Message>, attr: Attribute): seq<Message> {
    if attr.key == ACTION || groups == [] then groups + [[attr]]
    else groups[..|groups| - 1] + [groups[|groups| - 1] + [attr]]
  }

  function ActionGroups(a: seq<Attribute>): seq<Message> {
    if a == [] then [] else AddAttribute(ActionGroups(a[..|a| - 1]), a[|a| - 1])
  }

  lemma ActionGroupsNext(a: seq<Attribute>, attr: Attribute)
    ensures ActionGroups(a + [attr]) == AddAttribute(ActionGroups(a), attr)
  {
    assert (a + [attr])[..|a|] == a;
  }

  // Which of the two cases an attribute falls in, as the loop sees it.
  lemma AddAttributeCases(closed: seq<Message>, current: Message, attr: Attribute)
    ensures attr.key == ACTION ==> AddAttribute(closed, attr) == closed + [[attr]]
    ensures attr.key != ACTION ==> AddAttribute(closed + [current], attr) == closed + [current + [attr]]
    ensures AddAttribute([], attr) == [[attr]]
  {
    assert (closed + [current])[..|closed|] == closed;
  }

  function ActionCount(a: seq<Attribute>): nat {
    if a == [] then 0
    else ActionCount(a[..|a| - 1]) + if a[|a| - 1].key == ACTION then 1 else 0
  }

  // Interleaved: the attributes whose index is g modulo n.
  function Column(a: seq<Attribute>, n: nat, g: nat): Message
    requires g < n
  {
    if a == [] then [] else
      var i := |a| - 1;
      Column(a[..i], n, g) + if i % n == g then [a[i]] else []
  }

  function Columns(a: seq<Attribute>, n: nat): seq<Message> {
    seq(n, g requires 0 <= g < n => Column(a, n, g))
  }

  // The first attribute is the contract address and is dropped.
  function WithoutContract(attributes: seq<Attribute>): seq<Attribute> {
    if attributes == [] then [] else attributes[1..]
  }

  function Split(attributes: seq<Attribute>): SplitResult {
    var a := WithoutContract(attributes);
    if a == [] || (a[0].key == ACTION && |a| == 1) then Threw
    else if a[0].key == ACTION && a[1].key != ACTION then Messages(ActionGroups(a))
    else if ActionCount(a) == 0 then Threw
    else Messages(Columns(a, ActionCount(a)))
  }

  // The event, whose attribute list the splitter shortens in place.
  class WasmEvent {
    var attributes: seq<Attribute>

    constructor (attributes: seq<Attribute>)
      ensures this.attributes == attributes
    {
      this.attributes := attributes;
    }

    method SplitAttributesByKeyValue() returns (result: SplitResult)
      modifies this
      ensures attributes == WithoutContract(old(attributes))
      ensures result == Split(old(attributes))
    {
      if attributes != [] {
        attributes := attributes[1..];
      }
      if attributes == [] || (attributes[0].key == ACTION && |attributes| == 1) {
        return Threw;
      }
      var isSequential := attributes[0].key == ACTION && attributes[1].key != ACTION;
      if isSequential {
        var groups := GroupByAction(attributes);
        result := Messages(groups);
      } else {
        var actionCount := CountActions(attributes);
        if actionCount == 0 {
          return Threw;
        }
        var groups := Distribute(attributes, actionCount);
        result := Messages(groups);
      }
    }
  }

  method GroupByAction(a: seq<Attribute>) returns (result: seq<Message>)
    ensures result == ActionGroups(a)
  {
    hide ActionGroups, Groups;
    result := [];
    var currentGroup: Message := [];
    GroupStart();
    for i := 0 to |a|
      invariant currentGroup == [] <==> i == 0
      invariant ActionGroups(a[..i]) == Groups(result, currentGroup)
      invariant i == 0 ==> result == []
    {
      GroupStep(a, i, result, currentGroup);
      if a[i].key == ACTION {
        if currentGroup != [] {
          result := result + [currentGroup];
        }
        currentGroup := [a[i]];
      } else {
        currentGroup := currentGroup + [a[i]];
      }
    }
    assert a[..|a|] == a;
    GroupEnd(result, currentGroup);
    if currentGroup != [] {
      result := result + [currentGroup];
    }
  }

  lemma GroupStart()
    ensures ActionGroups([]) == Groups([], [])
  {
  }

  lemma GroupEnd(closed: seq<Message>, open: Message)
    ensures Groups(closed, open) == if open == [] then closed else closed + [open]
  {
  }

  // What one attribute does to the finished groups and the open one.
  lemma GroupStep(a: seq<Attribute>, i: nat, closed: seq<Message>, open: Message)
    requires i < |a| && ActionGroups(a[..i]) == Groups(closed, open) && (open == [] ==> closed == [])
    ensures a[i].key == ACTION ==>
              ActionGroups(a[..i + 1]) == Groups(if open == [] then closed else closed + [open], [a[i]])
    ensures a[i].key != ACTION ==> ActionGroups(a[..i + 1]) == Groups(closed, open + [a[i]])
  {
    assert a[..i] + [a[i]] == a[..i + 1];
    ActionGroupsNext(a[..i], a[i]);
    hide ActionGroups;
    if open == [] {
      assert open + [a[i]] == [a[i]];
    } else if a[i].key != ACTION {
      assert (closed + [open])[..|closed|] == closed;
    }
  }

  // The groups finished so far and the one still open, which is empty only before the first attribute.
  function Groups(closed: seq<Message>, open: Message): seq<Message> {
    if open == [] then closed else closed + [open]
  }

  method CountActions(a: seq<Attribute>) returns (count: nat)
    ensures count == ActionCount(a)
  {
    count := 0;
    for i := 0 to |a|
      invariant count == ActionCount(a[..i])
    {
      assert a[..i + 1][..i] == a[..i];
      if a[i].key == ACTION {
        count := count + 1;
      }
    }
    assert a[..|a|] == a;
  }

  method Distribute(a: seq<Attribute>, actionCount: nat) returns (result: seq<Message>)
    requires actionCount > 0
    ensures result == Columns(a, actionCount)
  {
    result := seq(actionCount, _ => []);
    for i := 0 to |a|
      invariant |result| == actionCount
      invariant forall g :: 0 <= g < actionCount ==> result[g] == Column(a[..i], actionCount, g)
    {
      assert a[..i + 1][..i] == a[..i];
      var groupIndex := i % actionCount;
      result := result[groupIndex := result[groupIndex] + [a[i]]];
    }
    assert a[..|a|] == a;
  }

  // -------------------------------------------------------------------------
  // The layouts the chain emits
  // -------------------------------------------------------------------------

  function Concat(messages: seq<Message>): seq<Attribute> {
    if messages == [] then []
    else Concat(messages[..|messages| - 1]) + messages[|messages| - 1]
  }

  // Headed by its only "action".
  predicate HeadedByAction(m: Message) {
    |m| >= 1 && m[0].key == ACTION && forall j :: 1 <= j < |m| ==> m[j].key != ACTION
  }

  // Same keys in the same order, "action" first.
  predicate ShareKeyOrder(messages: seq<Message>, width: nat) {
    && width >= 1
    && (forall i :: 0 <= i < |messages| ==> |messages[i]| == width && HeadedByAction(messages[i]))
    && (forall i, j :: 0 <= i < |messages| && 0 <= j < width ==> messages[i][j].key == messages[0][j].key)
  }

  // The j-th attribute of every message.
  function Row(messages: seq<Message>, j: nat): seq<Attribute>
    requires forall i :: 0 <= i < |messages| ==> j < |messages[i]|
  {
    seq(|messages|, i requires 0 <= i < |messages| => messages[i][j])
  }

  function GroupedLayout(messages: seq<Message>, width: nat): seq<Attribute>
    requires forall i :: 0 <= i < |messages| ==> width <= |messages[i]|
  {
    if width == 0 then [] else GroupedLayout(messages, width - 1) + Row(messages, width - 1)
  }

  /** Grouping by action never loses, adds or reorders an attribute, whatever the input. */
  lemma {:induction false} ActionGroupsKeepAttributes(a: seq<Attribute>)
    ensures Concat(ActionGroups(a)) == a
  {
    if a != [] {
      var init, attr := a[..|a| - 1], a[|a| - 1];
      ActionGroupsKeepAttributes(init);
      var groups := ActionGroups(init);
      if attr.key == ACTION || groups == [] {
        assert (groups + [[attr]])[..|groups|] == groups;
      } else {
        var front, last := groups[..|groups| - 1], groups[|groups| - 1];
        assert (front + [last + [attr]])[..|front|] == front;
        assert Concat(front) + (last + [attr]) == Concat(front) + last + [attr];
      }
    }
  }

  lemma {:induction false} OneMessageMore(a: seq<Attribute>, m: Message, j: nat)
    requires HeadedByAction(m) && 1 <= j <= |m|
    ensures ActionGroups(a + m[..j]) == ActionGroups(a) + [m[..j]]
  {
    hide ActionGroups;
    assert a + m[..j] == (a + m[..j - 1]) + [m[j - 1]];
    ActionGroupsNext(a + m[..j - 1], m[j - 1]);
    if j == 1 {
      assert a + m[..0] == a;
      assert m[..1] == [m[0]];
    } else {
      assert m[..j] == m[..j - 1] + [m[j - 1]];
      assert m[j - 1].key != ACTION;
      hide HeadedByAction, AddAttribute;
      OneMessageMore(a, m, j - 1);
      AddAttributeCases(ActionGroups(a), m[..j - 1], m[j - 1]);
    }
  }

  lemma {:induction false} ActionGroupsInvertConcat(messages: seq<Message>)
    requires forall i :: 0 <= i < |messages| ==> HeadedByAction(messages[i])
    ensures ActionGroups(Concat(messages)) == messages
  {
    if messages != [] {
      var front, m := messages[..|messages| - 1], messages[|messages| - 1];
      assert Concat(messages) == Concat(front) + m;
      hide ActionGroups, Concat;
      ActionGroupsInvertConcat(front);
      OneMessageMore(Concat(front), m, |m|);
      assert m[..|m|] == m;
    }
  }

  lemma {:induction false} ConcatStart(messages: seq<Message>)
    requires messages != [] && forall i :: 0 <= i < |messages| ==> |messages[i]| >= 1
    ensures |Concat(messages)| >= |messages[0]|
    ensures Concat(messages)[..|messages[0]|] == messages[0]
  {
    if |messages| == 1 {
      assert Concat(messages[..0]) == [];
    } else {
      ConcatStart(messages[..|messages| - 1]);
    }
  }

  lemma ModOfRow(q: nat, n: nat, r: nat)
    requires r < n
    ensures (n * q + r) % n == r
  {
    var d := (n * q + r) / n - q;
    assert n * (q + d) == n * q + n * d;
    MultipleInRange(n, d);
  }

  lemma MultipleInRange(n: int, d: int)
    requires n >= 0
    ensures d == 0 || n * d >= n || n * d <= -n
  {
    if d >= 1 {
      assert n * d == n + n * (d - 1);
    } else if d <= -1 {
      assert n * d == -n + n * (d + 1);
    }
  }

  lemma {:induction false} ColumnOfRow(a: seq<Attribute>, q: nat, row: seq<Attribute>, g: nat, m: nat)
    requires g < |row| && m <= |row| && |a| == |row| * q
    ensures Column(a + row[..m], |row|, g) == Column(a, |row|, g) + if g < m then [row[g]] else []
  {
    if m == 0 {
      assert a + row[..0] == a;
    } else {
      var whole := a + row[..m];
      assert whole[..|whole| - 1] == a + row[..m - 1];
      ColumnOfRow(a, q, row, g, m - 1);
      ModOfRow(q, |row|, m - 1);
    }
  }

  lemma {:induction false} ColumnOfLayout(messages: seq<Message>, width: nat, g: nat)
    requires forall i :: 0 <= i < |messages| ==> width <= |messages[i]|
    requires g < |messages|
    ensures |GroupedLayout(messages, width)| == |messages| * width
    ensures Column(GroupedLayout(messages, width), |messages|, g) == messages[g][..width]
  {
    if width > 0 {
      var above, row := GroupedLayout(messages, width - 1), Row(messages, width - 1);
      ColumnOfLayout(messages, width - 1, g);
      assert |messages| * (width - 1) + |messages| == |messages| * width;
      hide Column;
      ColumnOfRow(above, width - 1, row, g, |row|);
      assert row[..|row|] == row;
      assert messages[g][..width] == messages[g][..width - 1] + [messages[g][width - 1]];
    }
  }

  lemma {:induction false} CountConcat(a: seq<Attribute>, b: seq<Attribute>)
    ensures ActionCount(a + b) == ActionCount(a) + ActionCount(b)
  {
    if b == [] {
      assert a + b == a;
    } else {
      assert (a + b)[..|a + b| - 1] == a + b[..|b| - 1];
      CountConcat(a, b[..|b| - 1]);
    }
  }

  lemma {:induction false} CountUniform(row: seq<Attribute>, isAction: bool)
    requires forall i :: 0 <= i < |row| ==> (row[i].key == ACTION) == isAction
    ensures ActionCount(row) == if isAction then |row| else 0
  {
    if row != [] {
      CountUniform(row[..|row| - 1], isAction);
    }
  }

  lemma {:induction false} CountLayout(messages: seq<Message>, width: nat)
    requires forall i :: 0 <= i < |messages| ==> width <= |messages[i]| && HeadedByAction(messages[i])
    ensures ActionCount(GroupedLayout(messages, width)) == if width == 0 then 0 else |messages|
  {
    if width > 0 {
      CountLayout(messages, width - 1);
      CountConcat(GroupedLayout(messages, width - 1), Row(messages, width - 1));
      CountUniform(Row(messages, width - 1), width == 1);
    }
  }

  lemma {:induction false} LayoutStart(messages: seq<Message>, width: nat)
    requires width >= 1 && forall i :: 0 <= i < |messages| ==> width <= |messages[i]|
    ensures |GroupedLayout(messages, width)| >= |messages|
    ensures GroupedLayout(messages, width)[..|messages|] == Row(messages, 0)
    ensures |messages| == 1 ==> GroupedLayout(messages, width) == messages[0][..width]
  {
    if width == 1 {
      assert GroupedLayout(messages, 0) == [];
    } else {
      LayoutStart(messages, width - 1);
    }
  }

  /** Grouped round trip: messages with one key order come back unchanged, except the one layout
      the splitter cannot read: a single message made of its action alone. */
  lemma SplitInvertsGrouped(contract: Attribute, messages: seq<Message>, width: nat)
    requires ShareKeyOrder(messages, width)
    ensures Split([contract] + GroupedLayout(messages, width)) == Messages(messages)
            <==> |messages| >= 2 || (|messages| == 1 && width >= 2)
  {
    var a := GroupedLayout(messages, width);
    assert ([contract] + a)[1..] == a;
    LayoutStart(messages, width);
    if |messages| == 0 {
      EmptyLayout(messages, width);
    } else if |messages| == 1 {
      assert a == messages[0];
      if width >= 2 {
        assert Concat(messages[..0]) == [];
        assert Concat(messages) == messages[0];
        SequentialPath(contract, messages);
      }
    } else {
      InterleavedPath(contract, messages, width);
    }
  }

  lemma InterleavedPath(contract: Attribute, messages: seq<Message>, width: nat)
    requires ShareKeyOrder(messages, width) && |messages| >= 2
    ensures Split([contract] + GroupedLayout(messages, width)) == Messages(messages)
  {
    hide GroupedLayout, ActionCount, Column;
    var a := GroupedLayout(messages, width);
    assert ([contract] + a)[1..] == a;
    LayoutStart(messages, width);
    assert a[0] == a[..|messages|][0] && a[1] == a[..|messages|][1];
    CountLayout(messages, width);
    forall g | 0 <= g < |messages| ensures Columns(a, |messages|)[g] == messages[g] {
      ColumnOfLayout(messages, width, g);
      assert messages[g][..width] == messages[g];
    }
  }

  lemma {:induction false} EmptyLayout(messages: seq<Message>, width: nat)
    requires messages == []
    ensures GroupedLayout(messages, width) == []
  {
    if width > 0 {
      EmptyLayout(messages, width - 1);
    }
  }

  lemma {:induction false} ConcatLength(messages: seq<Message>)
    requires forall i :: 0 <= i < |messages| ==> |messages[i]| >= 1
    ensures |Concat(messages)| >= |messages|
    ensures |Concat(messages)| == |messages| <==> forall i :: 0 <= i < |messages| ==> |messages[i]| == 1
  {
    if messages != [] {
      var init, last := messages[..|messages| - 1], messages[|messages| - 1];
      ConcatLength(init);
      assert |Concat(messages)| == |Concat(init)| + |last|;
      hide Concat;
      assert forall i :: 0 <= i < |init| ==> init[i] == messages[i];
    }
  }

  lemma {:induction false} ConcatOfActions(messages: seq<Message>)
    requires forall i :: 0 <= i < |messages| ==> |messages[i]| == 1
    ensures Concat(messages) == GroupedLayout(messages, 1)
  {
    assert GroupedLayout(messages, 1) == [] + Row(messages, 0) == Row(messages, 0);
    if messages != [] {
      var front, last := messages[..|messages| - 1], messages[|messages| - 1];
      ConcatOfActions(front);
      assert GroupedLayout(front, 1) == [] + Row(front, 0) == Row(front, 0);
      assert last == [last[0]];
      assert Row(messages, 0) == Row(front, 0) + [last[0]];
    }
  }

  lemma {:induction false} ActionsInConcat(messages: seq<Message>)
    requires forall i :: 0 <= i < |messages| ==> HeadedByAction(messages[i])
    ensures ActionCount(Concat(messages)) == |messages|
  {
    if messages != [] {
      var front, m := messages[..|messages| - 1], messages[|messages| - 1];
      ActionsInConcat(front);
      CountConcat(Concat(front), m);
      assert m == m[..1] + m[1..];
      CountConcat(m[..1], m[1..]);
      CountUniform(m[..1], true);
      CountUniform(m[1..], false);
    }
  }

  lemma {:induction false} FirstColumnIsLong(a: seq<Attribute>, n: nat)
    requires 0 < n < |a|
    ensures |Column(a, n, 0)| >= 2
  {
    if |a| > n + 1 {
      FirstColumnIsLong(a[..|a| - 1], n);
    } else {
      FirstColumnStarts(a[..n], n);
    }
  }

  lemma {:induction false} FirstColumnStarts(a: seq<Attribute>, n: nat)
    requires 0 < |a| <= n
    ensures |Column(a, n, 0)| >= 1
  {
    if |a| > 1 {
      FirstColumnStarts(a[..|a| - 1], n);
    } else {
      assert a[..0] == [];
    }
  }

  /** Sequential round trip. The messages come back unchanged exactly when the first holds more than
      its action, or when there are several and none holds more than its action; otherwise the
      second "action" follows the first and the list is taken for an interleaved one. */
  lemma {:induction false} SplitInvertsSequential(contract: Attribute, messages: seq<Message>)
    requires forall i :: 0 <= i < |messages| ==> HeadedByAction(messages[i])
    ensures Split([contract] + Concat(messages)) == Messages(messages)
            <==> || (messages != [] && |messages[0]| >= 2)
                 || (|messages| >= 2 && forall i :: 0 <= i < |messages| ==> |messages[i]| == 1)
  {
    var a := Concat(messages);
    assert ([contract] + a)[1..] == a;
    if messages == [] {
    } else if |messages[0]| >= 2 {
      SequentialPath(contract, messages);
    } else {
      ConcatLength(messages);
      if |messages| == 1 {
        assert |a| == 1;
      } else if |a| == |messages| {
        ConcatOfActions(messages);
        SplitInvertsGrouped(contract, messages, 1);
      } else {
        ActionsInConcat(messages);
        SecondActionFollows(messages);
        FirstColumnIsLong(a, |messages|);
        assert Columns(a, |messages|)[0] != messages[0];
      }
    }
  }

  lemma SecondActionFollows(messages: seq<Message>)
    requires |messages| >= 2 && |messages[0]| == 1
    requires forall i :: 0 <= i < |messages| ==> HeadedByAction(messages[i])
    ensures |Concat(messages)| >= 2 && Concat(messages)[0].key == ACTION && Concat(messages)[1].key == ACTION
    decreases |messages|
  {
    if |messages| == 2 {
      assert Concat(messages[..1]) == messages[0] by {
        assert messages[..1][..0] == [];
      }
    } else {
      SecondActionFollows(messages[..|messages| - 1]);
    }
  }

  lemma SequentialPath(contract: Attribute, messages: seq<Message>)
    requires messages != [] && |messages[0]| >= 2
    requires forall i :: 0 <= i < |messages| ==> HeadedByAction(messages[i])
    ensures Split([contract] + Concat(messages)) == Messages(messages)
  {
    var a := Concat(messages);
    assert ([contract] + a)[1..] == a;
    ConcatStart(messages);
    assert a[0] == a[..|messages[0]|][0] && a[1] == a[..|messages[0]|][1];
    ActionGroupsInvertConcat(messages);
  }

  // -------------------------------------------------------------------------
  // Every attribute list, whether or not the chain emits it
  // -------------------------------------------------------------------------

  predicate IsAction(attributes: seq<Attribute>, i: int) {
    0 <= i < |attributes| && attributes[i].key == "action"
  }

  function ActionsIn(attributes: seq<Attribute>): set<int> {
    set i | 0 <= i < |attributes| && IsAction(attributes, i)
  }

  // Attribute i, the contract address not counted, is number i / n of message i % n.
  ghost predicate Dealt(attributes: seq<Attribute>, messages: seq<Message>) {
    forall g: nat, q: nat :: g < |messages| ==> DealtAt(attributes, messages, g, q)
  }

  ghost predicate DealtAt(attributes: seq<Attribute>, messages: seq<Message>, g: nat, q: nat)
    requires g < |messages|
  {
    && (q < |messages[g]| <==> q * |messages| + g < |attributes|)
    && (q < |messages[g]| ==> messages[g][q] == attributes[q * |messages| + g])
  }

  lemma {:induction false} CountIsActions(a: seq<Attribute>)
    ensures ActionCount(a) == |ActionsIn(a)|
  {
    if a == [] {
      assert ActionsIn(a) == {};
    } else {
      var last := |a| - 1;
      CountIsActions(a[..last]);
      assert ActionsIn(a) == ActionsIn(a[..last]) + if IsAction(a, last) then {last} else {};
    }
  }

  lemma RowsApart(n: nat, q: nat, p: nat)
    requires q < p
    ensures n * q + n <= n * p
  {
    assert n * p == n * q + n * (p - q);
    assert n * (p - q) == n + n * (p - q - 1);
  }

  lemma Quotient(i: nat, n: nat, g: nat, q: nat)
    requires g < n
    ensures i % n == g ==> (q * n + g < i <==> q < i / n) && (q * n + g == i <==> q == i / n)
    ensures i % n != g ==> q * n + g != i
  {
    ModOfRow(q, n, g);
    assert q * n == n * q;
    if i % n == g {
      var p := i / n;
      assert i == n * p + g;
      if q < p {
        RowsApart(n, q, p);
      } else if p < q {
        RowsApart(n, p, q);
      }
    }
  }

  lemma {:induction false} ColumnHolds(a: seq<Attribute>, n: nat, g: nat, q: nat)
    requires g < n
    ensures q < |Column(a, n, g)| <==> q * n + g < |a|
    ensures q < |Column(a, n, g)| ==> Column(a, n, g)[q] == a[q * n + g]
  {
    if a == [] {
      assert q * n >= 0;
    } else {
      var i := |a| - 1;
      ColumnHolds(a[..i], n, g, q);
      Quotient(i, n, g, q);
      if i % n == g {
        ColumnLength(a[..i], n, g);
      }
    }
  }

  // A column that is next to grow has as many attributes as there are full rows.
  lemma ColumnLength(a: seq<Attribute>, n: nat, g: nat)
    requires g < n && |a| % n == g
    ensures |Column(a, n, g)| == |a| / n
  {
    ColumnHolds(a, n, g, |a| / n);
    Quotient(|a|, n, g, |a| / n);
    if |a| / n > 0 {
      ColumnHolds(a, n, g, |a| / n - 1);
      Quotient(|a|, n, g, |a| / n - 1);
    }
  }

  lemma {:induction false} GroupsAreHeaded(a: seq<Attribute>)
    requires a != [] && IsAction(a, 0)
    ensures ActionGroups(a) != [] && forall i :: 0 <= i < |ActionGroups(a)| ==> HeadedByAction(ActionGroups(a)[i])
  {
    var init, last := a[..|a| - 1], a[|a| - 1];
    if init == [] {
      assert ActionGroups(init) == [];
    } else {
      assert IsAction(init, 0) && a == init + [last];
      hide ActionGroups, HeadedByAction, AddAttribute, IsAction;
      GroupsAreHeaded(init);
      ActionGroupsNext(init, last);
      StaysHeaded(ActionGroups(init), last);
    }
  }

  lemma StaysHeaded(groups: seq<Message>, attr: Attribute)
    requires groups != [] && forall i :: 0 <= i < |groups| ==> HeadedByAction(groups[i])
    ensures AddAttribute(groups, attr) != []
    ensures forall i :: 0 <= i < |AddAttribute(groups, attr)| ==> HeadedByAction(AddAttribute(groups, attr)[i])
  {
  }

  /** Exactly when does the splitter throw: when there is no action to group by, or nothing behind a lone one.
      Otherwise, if the list starts with one action and no second, it is cut before every action; else there are
      as many groups as actions, and the attributes are dealt to them in turn. */
  lemma SplitOfAnyList(attributes: seq<Attribute>)
    ensures var a := if attributes == [] then [] else attributes[1..];
            && (Split(attributes).Threw? <==> ActionsIn(a) == {} || (|a| == 1 && IsAction(a, 0)))
            && (Split(attributes).Messages? ==>
                  var messages := Split(attributes).messages;
                  if IsAction(a, 0) && !IsAction(a, 1)
                  then Concat(messages) == a && forall i :: 0 <= i < |messages| ==> HeadedByAction(messages[i])
                  else |messages| == |ActionsIn(a)| && Dealt(a, messages))
  {
    var a := WithoutContract(attributes);
    CountIsActions(a);
    assert IsAction(a, 0) ==> 0 in ActionsIn(a);
    hide ActionGroups, ActionCount, Column, Concat, ActionsIn, HeadedByAction;
    if a != [] && IsAction(a, 0) && !IsAction(a, 1) {
      ActionGroupsKeepAttributes(a);
      GroupsAreHeaded(a);
    } else if ActionCount(a) > 0 {
      ColumnsAreDealt(a, ActionCount(a));
    }
  }

  lemma ColumnsAreDealt(a: seq<Attribute>, n: nat)
    ensures Dealt(a, Columns(a, n))
  {
    hide Column;
    var messages := Columns(a, n);
    assert |messages| == n;
    forall g: nat, q: nat | g < |messages|
      ensures DealtAt(a, messages, g, q)
    {
      assert messages[g] == Column(a, n, g);
      ColumnHolds(a, n, g, q);
    }
  }
}
