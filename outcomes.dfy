/** The failure points of the chord-voicing engine, and the wrappers that carry them. */
module Outcomes {

  datatype Option<+T> = None | Some(value: T)

  /** One constructor per exception the engine can raise. */
  datatype Error =
    | KeyTooLong                  // `assert len(key) < 3` in assert_key (AssertionError)
    | EmptyKey                    // `key[0]` on an empty key (IndexError)
    | NotInList(item: string)     // `list.index` / `tuple.index` without a match (ValueError)
    | EmptyChordNum               // unpacking an empty chord symbol into `chord_root, *chord_form` (ValueError)
    | BadDegree(digit: char)      // `assert '0' < chord_root < '8'` (AssertionError)
    | IndexOutOfRange(index: int) // `self._chromatic_scale[root_idx]` past either end (IndexError)

  datatype Result<+T> = Ok(value: T) | Err(error: Error)
}
