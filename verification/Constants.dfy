/** The numeric constants of constants.h that the protocol depends on. */
module Constants {

  const MAX_RETRANSMITS: nat := 5
  const MAX_DATA_RETRANSMIT: nat := 10

  const PSEUDO_INF: nat := 0x4000_0000

  const HEADERLEN: nat := 16
  const HASHLEN_PACKET: nat := 20
  const BUFLEN: nat := 1484
  const MAX_PACKET_LEN: nat := 1500
  const FINALACK: nat := 354
  const CHUNKLEN: nat := 524288

  const MAXWIN: nat := 64
  const MAX_CHUNKS_PER_PACK: nat := 74

  newtype uint8 = x: int | 0 <= x < 256
}
