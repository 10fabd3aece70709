/** The keys the containers and rankings hold. */
module Keys {

  /** A key: a 64-bit hash, ordered by value. */
  datatype Key = Key(hash: int)
}
