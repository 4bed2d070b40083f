/** Data types shared by every part of the relay model. */
module Model {

  datatype Option<+T> = None | Some(value: T)

  /** A server-assigned device identifier. */
  datatype DeviceId = DeviceId(text: string)

  type Byte = x: int | 0 <= x < 256

  /** Text as the program sees it: a character stands for one byte. */
  type ByteText = s: string | forall i :: 0 <= i < |s| ==> s[i] as int < 256

  /** A content address. SHA-256 is taken to be injective, so a well-formed id is
      represented by the content it is the digest of; any other text is malformed. */
  datatype BlobId = Sha256(content: seq<Byte>) | Malformed(text: ByteText)

  /** A clipboard event, reduced to the fields the server acts on. */
  datatype Clip = Clip(
    id: string,
    origin: DeviceId,
    text: string,
    html: string,
    blob: Option<BlobId>,
    onDemand: bool,
    encrypted: bool)

  /** A clip held for an offline device. */
  datatype Item = Item(clip: Clip, enqueuedAt: int)
}
