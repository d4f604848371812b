/** Row-major addressing written out for the ranks the repackers use. */
module SmallRanks {
  import opened RowMajor

  lemma Size2(x: int, y: int)
    ensures Size([x, y]) == x * y
  {
    assert [x, y][1..] == [y] && [y][1..] == [];
    assert Size([y]) == y * Size([]);
  }

  lemma Size3(x: int, y: int, z: int)
    ensures Size([x, y, z]) == x * (y * z)
  {
    assert [x, y, z][1..] == [y, z];
    Size2(y, z);
  }

  lemma Size4(w: int, x: int, y: int, z: int)
    ensures Size([w, x, y, z]) == w * (x * (y * z))
  {
    assert [w, x, y, z][1..] == [x, y, z];
    Size3(x, y, z);
  }

  lemma Flat1(a: int, x: int)
    ensures Flat([a], [x]) == a
  {
    assert [a][1..] == [] && [x][1..] == [];
    assert Size([]) == 1 && Flat([], []) == 0;
  }

  lemma Flat2(a: int, b: int, x: int, y: int)
    ensures Flat([a, b], [x, y]) == a * y + b
  {
    assert [a, b][1..] == [b] && [x, y][1..] == [y] && [y][1..] == [];
    assert Size([y]) == y * Size([]);
    Flat1(b, y);
  }

  lemma Flat3(a: int, b: int, c: int, x: int, y: int, z: int)
    ensures Flat([a, b, c], [x, y, z]) == (a * y + b) * z + c
  {
    assert [a, b, c][1..] == [b, c] && [x, y, z][1..] == [y, z];
    Flat2(b, c, y, z);
    Size2(y, z);
    MulAssociative(a, y, z);
    MulDistributes(a * y, b, z);
  }

  lemma Flat4(a: int, b: int, c: int, e: int, w: int, x: int, y: int, z: int)
    ensures Flat([a, b, c, e], [w, x, y, z]) == ((a * x + b) * y + c) * z + e
  {
    assert [a, b, c, e][1..] == [b, c, e] && [w, x, y, z][1..] == [x, y, z];
    Flat3(b, c, e, x, y, z);
    Size3(x, y, z);
    MulAssociative(a * x, y, z);
    MulAssociative(a, x, y * z);
    MulDistributes(a * x, b, y);
    MulDistributes(a * x * y, b * y + c, z);
  }
}
