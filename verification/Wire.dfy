/** The constants of src/wire.rs and the limits the four core files add to them. */
module Wire {

  /** The preamble of a client: these four bytes, the version, the bridge's 32-byte key. */
  const MAGIC_CLIENT := [68, 83, 72, 67]
  const VERSION := 1
  const HEAD_LEN := 37
  const MAX_NOISE_MSG := 65535
  const TAG_LEN := 16

  const KIND_OPEN := 0
  const KIND_DATA := 1
  const KIND_CLOSE := 2
  const KIND_WINDOW := 3

  const FRAME_HEAD := 8
  const MAX_PAYLOAD := 16384
  const WINDOW := 262144

  const INBOX_FRAMES := 1024
  const OUTBOX_FRAMES := 256
  const WRITE_COALESCE := 32768
  const GRANT_THRESHOLD := 131072

  /** Stream ids are 32-bit and wrap. */
  const ID_SPACE := 0x1_0000_0000
  /** Noise nonces are 64-bit counters. */
  const NONCE_SPACE := 0x1_0000_0000_0000_0000
}
