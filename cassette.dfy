/**
 * Virtual cassettes (dsp/src/paging_buffer/cassette.rs): the identity of one
 * recording and the high-water mark of how much of it was ever recorded.
 */
module Cassettes {

  /** Identifies a recording; two identities are equal exactly when their indices are. */
  datatype CassetteId = CassetteId(index: nat)

  /** A recording: its identity and the number of samples ever recorded into it. */
  datatype Cassette = Cassette(id: CassetteId, length: nat) {

    /** `Cassette::new`: a cassette that has nothing recorded yet. */
    static function New(index: nat): (c: Cassette)
      ensures c.id == CassetteId(index) && c.length == 0
    {
      Cassette(CassetteId(index), 0)
    }
  }

  /** `CassetteId` equality is equality of the indices, in both directions. */
  lemma CassetteIdEquality(a: nat, b: nat)
    ensures CassetteId(a) == CassetteId(b) <==> a == b
  {
  }
}
