/** The reply a respondent gives to one quiz question. */
module CardioQuestion {

  /** The three options a question offers. */
  datatype Answer = Yes | No | Unsure

  /** An answer slot: None is a question not answered yet. */
  datatype Option<+T> = None | Some(value: T)
}
