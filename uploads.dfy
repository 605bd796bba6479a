/** A Streamlit `UploadedFile`: the name it was uploaded under and its bytes. */
module Uploads {
  import opened Bytes

  datatype UploadedFile = UploadedFile(name: string, content: seq<byte>)
}
