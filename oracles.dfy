/**
 * The foreign library calls the user model makes, as values passed in by the caller:
 * the MD5 digest of `crypto`, and `bcrypt.hash` / `bcrypt.compare`. Nothing is
 * assumed about them except the agreement predicate that lemmas may require.
 */
module Oracles {

  /** `crypto.createHash('md5').update(s).digest('hex')` */
  type Md5Hex = string -> string

  /** What the promise of `bcrypt.hash(plain, rounds)` settles to. */
  datatype HashResult = Hashed(digest: string) | HashFailed(reason: string)

  type Hasher = (string, nat) -> HashResult

  /** What the promise of `bcrypt.compare(plain, digest)` settles to. */
  datatype CompareResult = Compared(valid: bool) | CompareFailed(reason: string)

  type Comparer = (string, string) -> CompareResult

  /** bcrypt's own promise: a digest produced from a password verifies against that password. */
  ghost predicate Agree(hash: Hasher, compare: Comparer)
  {
    forall plain: string, rounds: nat :: hash(plain, rounds).Hashed? ==>
      compare(plain, hash(plain, rounds).digest) == Compared(true)
  }
}
