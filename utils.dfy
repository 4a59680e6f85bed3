/**
 * `Consumable` (tmcf/utils.py:11-30): a forward-only cursor with one line of
 * lookahead over the lines of a template, shared by reference between the
 * expansion routines so that a nested directive reads on from where its caller
 * stopped. The list of lines never changes; only the index moves.
 */
module Utils {
  import opened Wrappers

  class Consumable {
    const strings: seq<string>
    var index: nat

    /** Reading past the end raises before the index moves, so it never passes the end. */
    ghost predicate Valid()
      reads this
    {
      index <= |strings|
    }

    constructor (l: seq<string>)
      ensures Valid() && strings == l && index == 0
    {
      strings := l;
      index := 0;
    }

    /** `preview`: the line that would be read next; `None` stands for the
        `IndexError` raised on an exhausted cursor. */
    method Preview() returns (r: Option<string>)
      requires Valid()
      ensures index < |strings| ==> r == Some(strings[index])
      ensures index == |strings| ==> r == None
    {
      if index < |strings| {
        r := Some(strings[index]);
      } else {
        r := None;
      }
    }

    /** `consume`: the next line, moving past it; on an exhausted cursor the
        `IndexError` (`None`) leaves the index where it was. */
    method Consume() returns (r: Option<string>)
      requires Valid()
      modifies this
      ensures Valid()
      ensures old(index) < |strings| ==> r == Some(strings[old(index)]) && index == old(index) + 1
      ensures old(index) == |strings| ==> r == None && index == old(index)
    {
      if index < |strings| {
        r := Some(strings[index]);
        index := index + 1;
      } else {
        r := None;
      }
    }

    /** `is_consumable` */
    function IsConsumable(): (more: bool)
      reads this
      ensures more <==> index < |strings|
    {
      index < |strings|
    }
  }
}
