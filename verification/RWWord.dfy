/**
 The packed state word of RWLock and FairRWLock (rwlock.go, lines 14-17 and
 29-33): bits 0-29 count the readers, bit 30 is the writer.
 */
module RWWord {

  /** What a call asks for. */
  datatype Kind = Reader | Writer

  const WRITER: int := 0x4000_0000
  const MAX_READERS: int := 0x3fff_ffff

  predicate HasWriter(st: int) { (st / WRITER) % 2 == 1 }

  function ReaderCount(st: int): int { st % WRITER }

  /** `word` encodes r readers and w writers. */
  predicate Encodes(word: int, r: int, w: int) {
    (w == 0 && 0 <= word == r <= MAX_READERS) || (w == 1 && r == 0 && word == WRITER)
  }
}
