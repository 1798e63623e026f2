/** Program text, whatever it is stored in. */
module Listings {
  type Text = seq<char>

  datatype Mode = ClassicNumbered | Structured

  /** A structured program's lines are numbered from 1 on; the numbers are not in its file. */
  datatype Line = Line(number: int, body: Text)
}
