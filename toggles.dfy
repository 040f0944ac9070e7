/**
 * Logs of switch-on / switch-off calls made on a collaborator: SocketAdd and
 * SocketRemove on a transport socket, StartMonitoring and StopMonitoring on a
 * monitor. Replaying a log tells which items it leaves switched on, and
 * whether it ever switched an item on twice or off while it was off.
 */
module Toggles {
  import opened Common

  datatype Toggle<T> = On(item: T) | Off(item: T)

  function Switch<T>(on: bool, x: T): (t: Toggle<T>)
    ensures t.item == x && t.On? == on
  {
    if on then On(x) else Off(x)
  }

  /** The set of switched-on items after one call. */
  function Apply<T>(on: set<T>, t: Toggle<T>): (r: set<T>)
    ensures t.item in r <==> t.On?
    ensures r - {t.item} == on - {t.item}
  {
    if t.On? then on + {t.item} else on - {t.item}
  }

  /** The items left switched on after replaying `log` from the switched-on items `on`. */
  function Active<T>(on: set<T>, log: seq<Toggle<T>>): set<T>
    decreases |log|
  {
    if log == [] then on else Active(Apply(on, log[0]), log[1..])
  }

  /** No call of `log` switches on an item that is on, or switches off one that is off. */
  ghost predicate NoRepeat<T>(on: set<T>, log: seq<Toggle<T>>)
    decreases |log|
  {
    log == [] || ((log[0].On? <==> log[0].item !in on) && NoRepeat(Apply(on, log[0]), log[1..]))
  }

  /** The items a log names, in order. */
  function Items<T>(log: seq<Toggle<T>>): (xs: seq<T>)
    ensures |xs| == |log| && forall i :: 0 <= i < |log| ==> xs[i] == log[i].item
  {
    seq(|log|, i requires 0 <= i < |log| => log[i].item)
  }

  /** `part` switches every item of `s` on (or every one off), each exactly once, and nothing else. */
  ghost predicate SwitchesEach<T>(part: seq<Toggle<T>>, s: set<T>, on: bool)
  {
    (forall i :: 0 <= i < |part| ==> part[i].On? == on) && ListsOnce(Items(part), s)
  }

  lemma {:induction false} ActiveAppend<T>(on: set<T>, a: seq<Toggle<T>>, b: seq<Toggle<T>>)
    ensures Active(on, a + b) == Active(Active(on, a), b)
    decreases |a|
  {
    if a == [] {
      assert a + b == b;
    } else {
      assert (a + b)[1..] == a[1..] + b;
      ActiveAppend(Apply(on, a[0]), a[1..], b);
    }
  }

  lemma {:induction false} NoRepeatAppend<T>(on: set<T>, a: seq<Toggle<T>>, b: seq<Toggle<T>>)
    ensures NoRepeat(on, a + b) <==> NoRepeat(on, a) && NoRepeat(Active(on, a), b)
    decreases |a|
  {
    if a == [] {
      assert a + b == b;
    } else {
      assert (a + b)[1..] == a[1..] + b;
      assert (a + b)[0] == a[0];
      NoRepeatAppend(Apply(on, a[0]), a[1..], b);
    }
  }

  /** Taking one more step of a loop over a set extends a log that switches each item once. */
  lemma SwitchesEachExtend<T>(part: seq<Toggle<T>>, s: set<T>, on: bool, x: T)
    requires SwitchesEach(part, s, on) && x !in s
    ensures SwitchesEach(part + [Switch(on, x)], s + {x}, on)
  {
    assert Items(part + [Switch(on, x)]) == Items(part) + [x];
    ListsOnceExtend(Items(part), s, x);
  }

  /**
   * A log that switches every item of `s` on once leaves `on + s` switched on;
   * one that switches every item of `s` off once leaves `on - s`. It repeats no
   * call exactly when the items were all off (resp. all on) before.
   */
  lemma {:induction false} SwitchEachEffect<T>(on: set<T>, part: seq<Toggle<T>>, s: set<T>, flag: bool)
    requires SwitchesEach(part, s, flag)
    ensures Active(on, part) == if flag then on + s else on - s
    ensures (if flag then s !! on else s <= on) ==> NoRepeat(on, part)
    decreases |part|
  {
    if part == [] {
      assert multiset(s) == multiset{};
      assert s == {};
    } else {
      var x := part[0].item;
      var rest := part[1..];
      assert Items(part) == [x] + Items(rest);
      assert multiset(Items(part)) == multiset{x} + multiset(Items(rest));
      assert x in s by {
        assert x in multiset(Items(part));
      }
      MultisetOfInsert(s - {x}, x);
      assert s - {x} + {x} == s;
      assert multiset(Items(rest)) == multiset(Items(part)) - multiset{x};
      assert multiset(s - {x}) == multiset(s) - multiset{x};
      assert ListsOnce(Items(rest), s - {x});
      SwitchEachEffect(Apply(on, part[0]), rest, s - {x}, flag);
      if flag {
        assert Apply(on, part[0]) + (s - {x}) == on + s;
      } else {
        assert Apply(on, part[0]) - (s - {x}) == on - s;
      }
    }
  }
}
