/** What several modules share: optional values, bytes, and the joining of pieces. */
module Basics {
  datatype Option<T> = None | Some(value: T)

  type Byte = x: int | 0 <= x < 256

  /** The pieces one after the other. */
  function Flat(pieces: seq<seq<Byte>>): seq<Byte> {
    if pieces == [] then [] else pieces[0] + Flat(pieces[1..])
  }

  lemma {:induction false} FlatConcat(a: seq<seq<Byte>>, b: seq<seq<Byte>>)
    ensures Flat(a + b) == Flat(a) + Flat(b)
  {
    if a == [] {
      assert a + b == b;
    } else {
      assert (a + b)[1..] == a[1..] + b;
      FlatConcat(a[1..], b);
    }
  }

  lemma FlatMore(pieces: seq<seq<Byte>>, p: seq<Byte>)
    ensures Flat(pieces + [p]) == Flat(pieces) + p
  {
    FlatConcat(pieces, [p]);
    assert [p][1..] == [] && Flat([]) == [];
  }
}
