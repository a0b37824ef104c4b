// The text-to-number helpers of Common/StringManager.h. That header is not part
// of this model: its functions are inputs, gathered in one value `StringUtil`
// that every parsing operation takes as a parameter.
module StringManager {
  import opened TypeDef

  /** `WFindFirstBetween(row, "\"", from, last)`: returns the quoted item and, in
      `last`, a position. Its contract is not visible; the model assumes only
      that the position it reports lies in `[from, |row|)`, which is what lets
      the tokenizer's scan make progress and stay inside the row. */
  type QuoteScanner = f: (string, nat) -> (string, nat)
    | forall s: string, k: nat :: k < |s| ==> k <= f(s, k).1 < |s|
    witness (s: string, k: nat) => ("", k)

  datatype StringUtil = StringUtil(
    // WStringToNumeric<uint32>, <uint16>, <int32>, <float>
    toUInt32: string -> u32,
    toUInt16: string -> u16,
    toInt32: string -> i32,
    toFloat: string -> Float,
    // WStringToArray<int32>(token, separator)
    toInt32Array: (string, char) -> seq<i32>,
    // WCharToInt32(c)
    charToInt32: char -> i32,
    // WFindFirstBetween
    findFirstBetween: QuoteScanner)
}
