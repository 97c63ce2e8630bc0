/** Small shared datatypes. */
module Common {
  datatype Option<+T> = None | Some(value: T)

  function OptionMin(a: int, b: Option<int>): int {
    match b
    case None => a
    case Some(v) => if v < a then v else a
  }

  // SQL lower() on ASCII letters.
  function Lower(s: string): (low: string)
    ensures |low| == |s|
  {
    seq(|s|, i requires 0 <= i < |s| => if 'A' <= s[i] <= 'Z' then s[i] + 32 as char else s[i])
  }
}
