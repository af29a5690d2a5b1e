/** The frames of the file channel (types.ts) and what both ends share. */
module Wire {
  import opened Basics
  import opened Hashing
  import opened Encryption

  /** The text frame that precedes a chunk's binary frame. */
  datatype Meta = Meta(fileId: string, chunkIndex: nat, byteLength: nat, iv: Option<seq<byte>>)

  /**
   * Frames of the file channel.  `lost` is a history variable of the model: the
   * wire carries only a transfer id there, and no receiver step looks at it.
   */
  datatype FileMsg =
    | ChunkMeta(meta: Meta)
    | Binary(data: seq<byte>)
    | FileComplete(fileId: string, checksum: string)
    | TransferComplete(lost: set<nat>)

  /** The digest in use and the session's cipher, if any. */
  datatype Env = Env(h: Digest, cipher: Option<Cipher>)
}
