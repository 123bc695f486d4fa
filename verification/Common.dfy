/** What every module of the model shares. */
module Common {
  datatype Option<+T> = None | Some(value: T)

  /** An authenticated consumer; the code only ever compares them. */
  type Consumer = nat

  /** ECMAScript white space, what `trim` and `trimEnd` remove. */
  predicate JsSpace(c: char) {
    || '\t' <= c <= '\r' || c == ' ' || c == '\U{A0}' || c == '\U{1680}' || '\U{2000}' <= c <= '\U{200A}'
    || c in {'\U{2028}', '\U{2029}', '\U{202F}', '\U{205F}', '\U{3000}', '\U{FEFF}'}
  }

  function Trim(s: string): string {
    if s == "" then ""
    else if JsSpace(s[0]) then Trim(s[1..])
    else if JsSpace(s[|s| - 1]) then Trim(s[..|s| - 1])
    else s
  }
}
