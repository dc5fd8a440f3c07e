/** Fiscal bytes as terms: hashing, gzip and base64 are free constructors, so they are
    injective and only unpack what was packed. */
module Documents {
  datatype Blob = Raw(text: string) | Gzip(content: string)

  datatype Digest = Sha256(of: Blob)

  /** The `archivo` column: empty, text that is not base64, or encoded bytes. */
  datatype Archivo = NoArchivo | NotBase64(text: string) | Base64(data: Blob)

  function DigestOf(xml: string): Digest {
    Sha256(Raw(xml))
  }

  /** `Packer.PackDocument`, the archive. */
  function Pack(xml: string): Archivo {
    Base64(Gzip(xml))
  }

  /** `Packer.PackDocument`, the hash: it covers the compressed bytes. */
  function PackHash(xml: string): Digest {
    Sha256(Gzip(xml))
  }
}
