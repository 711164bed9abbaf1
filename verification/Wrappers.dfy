/** What the modules of this project share: an optional value, two facts about the size of a set, and JavaScript's
    32-bit view of a number. */
module Wrappers {
  datatype Option<+T> = None | Some(value: T)

  lemma OneMore<A>(s: set<A>, a: A)
    requires a !in s
    ensures |s + {a}| == |s| + 1 && s + {a} != {}
  {
    assert a in s + {a};
  }

  lemma OneLess<A>(s: set<A>, a: A)
    requires a in s
    ensures |s - {a}| == |s| - 1 && (|s| == 1 ==> s - {a} == {})
  {
  }

  /** What a JavaScript bit operation sees of a number: its last 32 bits, with their sign. */
  function ToInt32(x: int): (y: int)
    ensures -0x8000_0000 <= y < 0x8000_0000
    ensures -0x8000_0000 <= x < 0x8000_0000 ==> y == x
  {
    var m := x % 0x1_0000_0000;
    if m < 0x8000_0000 then m else m - 0x1_0000_0000
  }
}
