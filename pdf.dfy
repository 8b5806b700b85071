/** PyMuPDF as the screener uses it: opening a byte stream as a PDF either
    fails or yields the document's pages, each with its extracted text. The
    parser is foreign and is supplied as a function. */
module Pdf {

  newtype byte = x: int | 0 <= x < 256

  /** fitz.open(stream=..., filetype="pdf") followed by page.get_text() on
      every page, in document order; or the exception fitz.open raised. */
  datatype Document = Opened(pageTexts: seq<string>) | NotAPdf(msg: string)

  type Reader = seq<byte> -> Document
}
