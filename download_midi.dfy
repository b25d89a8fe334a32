/**
 * The client's download helper (client/src/utils/downloadMidi.js): `atob`
 * turns the Base64 payload into a "binary string" whose characters are the
 * decoded octets (Latin-1), `base64ToBlob` copies the character codes into a
 * byte array in an indexed loop, and `downloadMidi` saves the blob under the
 * given file name.
 */
module MidiDownload {
  import opened Wrappers
  import opened Base64

  /** A browser Blob: its bytes and its MIME type. */
  datatype Blob = Blob(bytes: seq<byte>, mimeType: string)

  /** The file the browser saves when the temporary download link is clicked. */
  datatype Download = Download(blob: Blob, filename: string)

  const MidiMimeType: string := "audio/midi"

  /** The Latin-1 character whose code is `b`. */
  function Latin1(b: byte): (c: char)
    ensures c as int == b as int
  {
    (b as int) as char
  }

  /**
   * `atob`: the decoded octets as a binary string, or None where the browser
   * throws InvalidCharacterError on a malformed payload.
   */
  function Atob(s: string): (r: Option<string>)
    ensures r.Some? <==> Decode(s).Some?
    ensures r.Some? ==> |r.value| == |Decode(s).value|
    ensures r.Some? ==> forall i :: 0 <= i < |r.value| ==> r.value[i] as int == Decode(s).value[i] as int
  {
    match Decode(s)
    case None => None
    case Some(octets) => Some(seq(|octets|, i requires 0 <= i < |octets| => Latin1(octets[i])))
  }

  /** The conversion `new Uint8Array(...)` applies to each number (ToUint8: modulo 256). */
  function ToUint8(n: int): (b: byte)
    ensures 0 <= n < 256 ==> b as int == n
  {
    (n % 256) as byte
  }

  /** The bytes a `Uint8Array` built from the character codes of `s` holds. */
  function CharCodeBytes(s: string): (r: seq<byte>)
    ensures |r| == |s|
    ensures forall i :: 0 <= i < |s| ==> r[i] == ToUint8(s[i] as int)
  {
    seq(|s|, i requires 0 <= i < |s| => ToUint8(s[i] as int))
  }

  /**
   * `base64ToBlob`: decode, then copy each character code into `byteNumbers`
   * one index at a time. None where `atob` throws.
   */
  method Base64ToBlob(base64: string, mimeType: string) returns (r: Option<Blob>)
    ensures r.Some? <==> Decode(base64).Some?
    ensures r.Some? ==> r.value.bytes == Decode(base64).value
    ensures r.Some? ==> r.value.mimeType == mimeType
  {
    var decoded := Atob(base64);
    if decoded.None? {
      return None;
    }
    var byteCharacters := decoded.value;
    var byteNumbers := new int[|byteCharacters|];
    var i := 0;
    while i < |byteCharacters|
      invariant 0 <= i <= |byteCharacters|
      invariant forall k :: 0 <= k < i ==> byteNumbers[k] == byteCharacters[k] as int
    {
      byteNumbers[i] := byteCharacters[i] as int;
      i := i + 1;
    }
    var byteArray := seq(byteNumbers.Length, k requires 0 <= k < byteNumbers.Length reads byteNumbers => ToUint8(byteNumbers[k]));
    assert byteArray == CharCodeBytes(byteCharacters);
    LatinCodesRoundTrip(base64);
    r := Some(Blob(byteArray, mimeType));
  }

  /** The character codes of `atob`'s output are exactly the decoded octets. */
  lemma LatinCodesRoundTrip(s: string)
    requires Decode(s).Some?
    ensures CharCodeBytes(Atob(s).value) == Decode(s).value
  {
    var octets, chars := Decode(s).value, Atob(s).value;
    forall i | 0 <= i < |chars|
      ensures CharCodeBytes(chars)[i] == octets[i]
    {
      assert chars[i] as int == octets[i] as int;
    }
  }

  /**
   * `downloadMidi`: a blob of type "audio/midi" saved under `filename`; None
   * where decoding throws before the link is created.
   */
  method DownloadMidi(dataBase64: string, filename: string) returns (r: Option<Download>)
    ensures r.Some? <==> Decode(dataBase64).Some?
    ensures r.Some? ==> r.value.filename == filename
    ensures r.Some? ==> r.value.blob == Blob(Decode(dataBase64).value, MidiMimeType)
  {
    var blob := Base64ToBlob(dataBase64, MidiMimeType);
    if blob.None? {
      return None;
    }
    r := Some(Download(blob.value, filename));
  }

  /**
   * The wire round trip: the server's `encode_binary` output, decoded by
   * `atob` and copied code by code, gives back the original bytes.
   */
  lemma {:induction false} ClientDecodesServer(data: seq<byte>)
    ensures Atob(Encode(data)).Some?
    ensures CharCodeBytes(Atob(Encode(data)).value) == data
  {
    DecodeEncode(data);
    LatinCodesRoundTrip(Encode(data));
  }
}
