/** The hub's records (internal/ledger/ledger.go, lines 41-71). */
module Ledger {
  type Path = string
  type Content = string
  type ClientId = string

  /**
   * A content hash. sha256 is taken to be collision free and its hex form is never the
   * empty string, so a hash is either absent or determined by the content.
   */
  datatype Hash = NoHash | Sum(content: Content)

  datatype FileEntry = FileEntry(hash: Hash, gen: int)

  datatype Tombstone = Tombstone(gen: int, lastHash: Hash)

  /** clients maps a client to its cursor, the LastGen of its record. */
  datatype Ledger = Ledger(
    generation: int,
    files: map<Path, FileEntry>,
    tombstones: map<Path, Tombstone>,
    clients: map<ClientId, int>)

  const EMPTY: Ledger := Ledger(0, map[], map[], map[])
}
