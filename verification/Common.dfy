/** Values shared by every model: optional values, results, and the symbolic
    stand-ins for SHA-256, HMAC and Ed25519.  A symbolic digest, MAC or signature
    is the value it was computed from, so each is injective by construction. */
module Common {

  datatype Option<+T> = None | Some(value: T)

  datatype Result<+T, +E> = Ok(value: T) | Err(error: E)

  type Time = int

  type Id = nat

  /** SHA-256 of a canonically encoded value; the all-zero placeholder is the digest
      of nothing. */
  datatype Sha<T> = Zero | Sha(of: T)

  /** HMAC-SHA-256 under a caller-held key. */
  datatype Mac<T> = Mac(key: Id, payload: T)

  /** Ed25519 signature; several signatures of one message may exist. */
  datatype Signature<T> = Signature(key: Id, message: T, nonce: nat)

  function Min(a: int, b: int): int {
    if a <= b then a else b
  }

  function Max(a: int, b: int): int {
    if a <= b then b else a
  }

  /** The elements of a sequence, order and repetition forgotten. */
  function Elements<T(==)>(s: seq<T>): set<T> {
    set x | x in s
  }

  /** The least element, as a property of every element and of one of them. */
  ghost predicate IsLeast(m: int, s: set<int>) {
    m in s && forall x | x in s :: m <= x
  }

  method Minimum(s: seq<int>) returns (m: int)
    requires |s| > 0
    ensures IsLeast(m, Elements(s))
  {
    m := s[0];
    for i := 1 to |s|
      invariant IsLeast(m, Elements(s[..i]))
    {
      if s[i] < m {
        m := s[i];
      }
      assert s[..i + 1] == s[..i] + [s[i]];
      assert Elements(s[..i + 1]) == Elements(s[..i]) + {s[i]};
    }
    assert s[..|s|] == s;
  }
}
