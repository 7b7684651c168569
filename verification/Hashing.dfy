/** Bytes, and SHA-256 as an abstract collision-free function on them. */
module Hashing {

  type Bytes = seq<bv8>

  ghost predicate CollisionFree(f: Bytes -> string) {
    forall a, b :: f(a) == f(b) ==> a == b
  }

  /** The digest written as text.  Nothing else about SHA-256 is used. */
  type Sha256 = f: Bytes -> string | CollisionFree(f) witness (Latin1CollisionFree(); Latin1)

  /** One character per byte: shows that a collision-free function exists. */
  function Latin1(b: Bytes): string {
    if b == [] then "" else [b[0] as char] + Latin1(b[1..])
  }

  lemma {:induction false} Latin1Injective(a: Bytes, b: Bytes)
    requires Latin1(a) == Latin1(b)
    ensures a == b
  {
    if a != [] && b != [] {
      assert Latin1(a)[0] == Latin1(b)[0];
      assert Latin1(a)[1..] == Latin1(a[1..]) && Latin1(b)[1..] == Latin1(b[1..]);
      Latin1Injective(a[1..], b[1..]);
      assert a == [a[0]] + a[1..] && b == [b[0]] + b[1..];
    }
  }

  lemma Latin1CollisionFree()
    ensures CollisionFree(Latin1)
  {
    forall a, b | Latin1(a) == Latin1(b) ensures a == b {
      Latin1Injective(a, b);
    }
  }

  ghost predicate TextCollisionFree(f: string -> string) {
    forall a, b :: f(a) == f(b) ==> a == b
  }

  /** SHA-256 of the UTF-8 form of a text; UTF-8 is injective, so this is collision-free too. */
  type TextSha256 = f: string -> string | TextCollisionFree(f) witness (s: string) => s
}
