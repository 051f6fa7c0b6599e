/**
 * MenuPanel: a cyclic cursor over a non-empty list of menu items. Moving the cursor calls
 * ChangeStatus on the item it leaves and on the item it lands on, so the active item is the
 * one item whose status has been flipped an odd number of times.
 */
module Menus {

  import opened Wrappers

  /** The command a menu item runs when activated (its Command object). */
  datatype MenuCommand = FlipMenuCommand | StartGameCommand | BackToMenuCommand | QuitGameCommand

  /** The last `SetPosition(x, y, index)` an item received. */
  datatype Placement = Placement(x: int, y: int, index: int)

  /**
   * MenuItem, reduced to what the panel does to it: the calls it receives are counted, and
   * the last placement is kept.
   */
  datatype MenuItem = MenuItem(
    command: MenuCommand,
    text: string,
    description: string,
    statusChanges: nat,
    actions: nat,
    updates: nat,
    placement: Option<Placement>)
  {
    function ChangeStatus(): MenuItem {
      this.(statusChanges := statusChanges + 1)
    }

    /** `Action()`: runs the item's command, recorded as one more call. */
    function Action(): MenuItem {
      this.(actions := actions + 1)
    }

    function Update(): MenuItem {
      this.(updates := updates + 1)
    }

    function SetPosition(x: int, y: int, index: int): MenuItem {
      this.(placement := Some(Placement(x, y, index)))
    }
  }

  /** `new MenuItem(command, label, description)`, before any call. */
  function NewMenuItem(command: MenuCommand, text: string, description: string): MenuItem {
    MenuItem(command, text, description, 0, 0, 0, None)
  }

  /** The index GoDown moves to: `(i + 1) % count`. */
  function NextIndex(i: int, count: int): (r: int)
    requires 0 <= i < count
    ensures 0 <= r < count
    ensures r == if i == count - 1 then 0 else i + 1
  {
    (i + 1) % count
  }

  /** The index GoUp moves to: `(i - 1 + count) % count`. */
  function PrevIndex(i: int, count: int): (r: int)
    requires 0 <= i < count
    ensures 0 <= r < count
    ensures r == if i == 0 then count - 1 else i - 1
  {
    (i - 1 + count) % count
  }

  /** GoUp after GoDown, and GoDown after GoUp, give back the index. */
  lemma UpDownInverse(i: int, count: int)
    requires 0 <= i < count
    ensures PrevIndex(NextIndex(i, count), count) == i
    ensures NextIndex(PrevIndex(i, count), count) == i
  {
  }

  /** The index after `k` consecutive GoDown calls. */
  function DownTimes(i: int, k: nat, count: int): (r: int)
    requires 0 <= i < count
    ensures 0 <= r < count
  {
    if k == 0 then i else NextIndex(DownTimes(i, k - 1, count), count)
  }

  lemma MulAtLeast(d: int, count: int)
    requires d >= 1 && count > 0
    ensures d * count >= count
  {
  }

  /** The remainder is determined by any decomposition `x == q * count + r` with `0 <= r < count`. */
  lemma ModUnique(x: int, q: int, r: int, count: int)
    requires count > 0 && 0 <= r < count && x == q * count + r
    ensures x % count == r
  {
    var q', r' := x / count, x % count;
    assert x == q' * count + r';
    var d := q - q';
    assert d * count == q * count - q' * count;
    assert d * count == r' - r;
    if d >= 1 {
      MulAtLeast(d, count);
    } else if d <= -1 {
      MulAtLeast(-d, count);
    }
  }

  lemma ModSucc(a: int, count: int)
    requires count > 0
    ensures (a % count + 1) % count == (a + 1) % count
  {
    var q, r := a / count, a % count;
    if r + 1 < count {
      ModUnique(a + 1, q, r + 1, count);
      ModUnique(r + 1, 0, r + 1, count);
    } else {
      ModUnique(a + 1, q + 1, 0, count);
      ModUnique(r + 1, 1, 0, count);
    }
  }

  /** `k` GoDown calls advance the index by `k`, cyclically. */
  lemma {:induction false} DownTimesShifts(i: int, k: nat, count: int)
    requires 0 <= i < count
    ensures DownTimes(i, k, count) == (i + k) % count
  {
    if k == 0 {
      ModUnique(i, 0, i, count);
    } else {
      DownTimesShifts(i, k - 1, count);
      var prev := DownTimes(i, k - 1, count);
      assert DownTimes(i, k, count) == (prev + 1) % count;
      ModSucc(i + k - 1, count);
    }
  }

  /** `count` consecutive GoDown calls bring the cursor back where it started. */
  lemma DownCycle(i: int, count: int)
    requires 0 <= i < count
    ensures DownTimes(i, count as nat, count) == i
  {
    DownTimesShifts(i, count as nat, count);
    ModUnique(i + count, 1, i, count);
  }

  /** The panel's state as a value: its items and its cursor. */
  datatype MenuState = MenuState(items: seq<MenuItem>, active: int)

  predicate CursorValid(s: MenuState) {
    0 <= s.active < |s.items|
  }

  /** The active item is the only item whose status was changed an odd number of times. */
  predicate OnlyActiveOdd(s: MenuState) {
    && CursorValid(s)
    && forall k :: 0 <= k < |s.items| ==> (s.items[k].statusChanges % 2 == 1 <==> k == s.active)
  }

  /**
   * The state after UpdateCurrentItem, a cursor assignment to `j`, and UpdateCurrentItem
   * again: the shape of GoDown and GoUp.
   */
  function MoveTo(s: MenuState, j: int): (r: MenuState)
    requires CursorValid(s) && 0 <= j < |s.items|
    ensures r.active == j && |r.items| == |s.items|
    ensures forall k :: 0 <= k < |s.items| ==>
      r.items[k] == s.items[k].(statusChanges := s.items[k].statusChanges
        + (if k == s.active then 1 else 0) + (if k == j then 1 else 0))
  {
    var before := s.items[s.active := s.items[s.active].ChangeStatus()];
    MenuState(before[j := before[j].ChangeStatus()], j)
  }

  /** A move keeps the active item the only one with an odd status count. */
  lemma MoveKeepsOnlyActiveOdd(s: MenuState, j: int)
    requires OnlyActiveOdd(s) && 0 <= j < |s.items|
    ensures OnlyActiveOdd(MoveTo(s, j))
  {
    var r := MoveTo(s, j);
    forall k | 0 <= k < |s.items|
      ensures r.items[k].statusChanges % 2 == 1 <==> k == j
    {
      assert r.items[k].statusChanges == s.items[k].statusChanges
        + (if k == s.active then 1 else 0) + (if k == j then 1 else 0);
    }
  }

  class MenuPanel {
    var items: seq<MenuItem>
    var activeItemIndex: int

    ghost predicate Valid()
      reads this
    {
      0 <= activeItemIndex < |items|
    }

    function State(): MenuState
      reads this
    {
      MenuState(items, activeItemIndex)
    }

    /** Selects item 0 and flips its status once. The list must be non-empty. */
    constructor (items: seq<MenuItem>)
      requires |items| > 0
      ensures Valid() && activeItemIndex == 0
      ensures this.items == items[0 := items[0].ChangeStatus()]
      ensures (forall k :: 0 <= k < |items| ==> items[k].statusChanges == 0) ==> OnlyActiveOdd(State())
    {
      this.items := items;
      activeItemIndex := 0;
      new;
      UpdateCurrentItem();
    }

    /** Flips the status of the active item. */
    method UpdateCurrentItem()
      requires Valid()
      modifies this
      ensures Valid() && activeItemIndex == old(activeItemIndex)
      ensures items == old(items)[activeItemIndex := old(items)[activeItemIndex].ChangeStatus()]
    {
      items := items[activeItemIndex := items[activeItemIndex].ChangeStatus()];
    }

    /** Moves the cursor one item down, wrapping from the last item to the first. */
    method GoDown()
      requires Valid()
      modifies this
      ensures Valid()
      ensures activeItemIndex == NextIndex(old(activeItemIndex), |old(items)|)
      ensures State() == MoveTo(old(State()), activeItemIndex)
      ensures OnlyActiveOdd(old(State())) ==> OnlyActiveOdd(State())
    {
      ghost var s := State();
      UpdateCurrentItem();
      activeItemIndex := (activeItemIndex + 1) % |items|;
      UpdateCurrentItem();
      if OnlyActiveOdd(s) {
        MoveKeepsOnlyActiveOdd(s, activeItemIndex);
      }
    }

    /** Moves the cursor one item up, wrapping from the first item to the last. */
    method GoUp()
      requires Valid()
      modifies this
      ensures Valid()
      ensures activeItemIndex == PrevIndex(old(activeItemIndex), |old(items)|)
      ensures State() == MoveTo(old(State()), activeItemIndex)
      ensures OnlyActiveOdd(old(State())) ==> OnlyActiveOdd(State())
    {
      ghost var s := State();
      UpdateCurrentItem();
      activeItemIndex := (activeItemIndex - 1 + |items|) % |items|;
      UpdateCurrentItem();
      if OnlyActiveOdd(s) {
        MoveKeepsOnlyActiveOdd(s, activeItemIndex);
      }
    }

    /** Runs the active item's action; the cursor does not move. */
    method Act()
      requires Valid()
      modifies this
      ensures Valid() && activeItemIndex == old(activeItemIndex)
      ensures items == old(items)[activeItemIndex := old(items)[activeItemIndex].Action()]
    {
      items := items[activeItemIndex := items[activeItemIndex].Action()];
    }

    /** Places item `i` at `(x, y)` with index `i`, for every item in order. */
    method SetPosition(x: int, y: int)
      requires Valid()
      modifies this
      ensures Valid() && activeItemIndex == old(activeItemIndex) && |items| == |old(items)|
      ensures forall k :: 0 <= k < |items| ==> items[k] == old(items)[k].SetPosition(x, y, k)
    {
      var i := 0;
      while i < |items|
        invariant 0 <= i <= |items| == |old(items)|
        invariant activeItemIndex == old(activeItemIndex)
        invariant forall k :: 0 <= k < i ==> items[k] == old(items)[k].SetPosition(x, y, k)
        invariant forall k :: i <= k < |items| ==> items[k] == old(items)[k]
      {
        items := items[i := items[i].SetPosition(x, y, i)];
        i := i + 1;
      }
    }

    /** Updates every item once, in order. */
    method Update()
      requires Valid()
      modifies this
      ensures Valid() && activeItemIndex == old(activeItemIndex) && |items| == |old(items)|
      ensures forall k :: 0 <= k < |items| ==> items[k] == old(items)[k].Update()
    {
      var i := 0;
      while i < |items|
        invariant 0 <= i <= |items| == |old(items)|
        invariant activeItemIndex == old(activeItemIndex)
        invariant forall k :: 0 <= k < i ==> items[k] == old(items)[k].Update()
        invariant forall k :: i <= k < |items| ==> items[k] == old(items)[k]
      {
        items := items[i := items[i].Update()];
        i := i + 1;
      }
    }
  }
}
