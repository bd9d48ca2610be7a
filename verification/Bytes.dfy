/** Byte strings. */
module Bytes {
  newtype byte = x: int | 0 <= x < 256

  type Text = seq<byte>

  const LF: byte := 10
  const CR: byte := 13

  function Concat(parts: seq<Text>): Text {
    if parts == [] then [] else Concat(parts[..|parts| - 1]) + parts[|parts| - 1]
  }

  lemma {:induction false} ConcatPlus(a: seq<Text>, b: seq<Text>)
    ensures Concat(a + b) == Concat(a) + Concat(b)
  {
    if b == [] {
      assert a + b == a;
    } else {
      var init := b[..|b| - 1];
      ConcatPlus(a, init);
      assert (a + b)[..|a + b| - 1] == a + init;
    }
  }

  lemma ConcatOne(p: Text)
    ensures Concat([p]) == p
  {
    assert [p][..0] == [];
    assert Concat([p]) == Concat([]) + p;
  }
}
