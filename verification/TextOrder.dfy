// The order of strings by code unit: Array.prototype.sort, and SQLite's comparison of texts.
module TextOrder {
  predicate Before(a: string, b: string) {
    if b == [] then false
    else if a == [] then true
    else if a[0] != b[0] then a[0] < b[0]
    else Before(a[1..], b[1..])
  }

  lemma {:induction false} BeforeIsStrictOrder(a: string, b: string, c: string)
    ensures !Before(a, a)
    ensures a != b ==> Before(a, b) != Before(b, a)
    ensures Before(a, b) && Before(b, c) ==> Before(a, c)
    decreases |a| + |b| + |c|
  {
    if a != [] && b != [] {
      if c != [] {
        BeforeIsStrictOrder(a[1..], b[1..], c[1..]);
      } else {
        BeforeIsStrictOrder(a[1..], b[1..], c);
      }
      assert a[0] == b[0] && a[1..] == b[1..] ==> a == [a[0]] + a[1..] == b;
    } else if a != [] {
      BeforeIsStrictOrder(a[1..], b, c);
    }
  }

  // Texts that agree in length are ordered by their common-length heads first.
  lemma {:induction false} HeadsDecide(a: string, b: string, x: string, y: string)
    requires |a| == |b|
    ensures a == b ==> (Before(a + x, b + y) <==> Before(x, y))
    ensures a != b ==> (Before(a + x, b + y) <==> Before(a, b))
  {
    if a == [] {
      assert a + x == x && b + y == y;
    } else {
      assert (a + x)[1..] == a[1..] + x && (b + y)[1..] == b[1..] + y;
      assert a == [a[0]] + a[1..] && b == [b[0]] + b[1..];
      HeadsDecide(a[1..], b[1..], x, y);
    }
  }
}
