/**
 * The password hasher the handlers call (bcrypt in the original), kept
 * abstract: a hasher is given by its two operations, and what the handlers
 * rely on is stated as predicates over them rather than assumed.
 */
module Hashing {
  import opened Wrappers

  /** What comparing a stored hash with a candidate password can report. */
  datatype Verdict =
    | Match     // the password produced this hash
    | Mismatch  // bcrypt.ErrMismatchedHashAndPassword
    | Error     // any other failure, such as a stored hash that is not in bcrypt's format

  /**
   * `generate(password, seed)` is bcrypt.GenerateFromPassword at the default
   * cost, where `seed` stands for the random salt bcrypt draws; None is its
   * error result. `compare(hashed, password)` is bcrypt.CompareHashAndPassword.
   */
  datatype Hasher = Hasher(
    generate: (string, nat) -> Option<string>,
    compare: (string, string) -> Verdict)

  /** Every hash the hasher produces verifies against the password it was produced from. */
  ghost predicate Sound(h: Hasher)
  {
    forall password, seed :: h.generate(password, seed).Some? ==>
      h.compare(h.generate(password, seed).value, password) == Match
  }

  /** A hash the hasher produces reports Mismatch for every other password. */
  ghost predicate Binding(h: Hasher)
  {
    forall password, seed, other :: h.generate(password, seed).Some? && other != password ==>
      h.compare(h.generate(password, seed).value, other) == Mismatch
  }

  /** The string actually hashed: the password with the process-wide salt appended. */
  function Salted(password: string, salt: string): (r: string)
    ensures |r| == |password| + |salt|
    ensures r[..|password|] == password && r[|password|..] == salt
  {
    password + salt
  }

  /** Appending the same salt keeps different passwords different. */
  lemma SaltedInjective(password: string, other: string, salt: string)
    requires password != other
    ensures Salted(password, salt) != Salted(other, salt)
  {
  }
}
