/** Conversation messages. A char stands for one byte of a std::string. */
module Messages {
  type Metadata = map<string, string>

  datatype Message = Message(role: string, content: string, metadata: Metadata)

  datatype Option<+T> = None | Some(value: T)

  predicate StartsWith(s: string, prefix: string) {
    prefix <= s
  }

  predicate HasValue(m: Metadata, key: string, value: string) {
    key in m && m[key] == value
  }

  /** isspace in the "C" locale. */
  predicate IsSpace(c: char) {
    c == ' ' || '\t' <= c <= '\r'
  }

  predicate IsDigit(c: char) {
    '0' <= c <= '9'
  }

  function Digit(d: nat): char
    requires d < 10
  {
    '0' + d as char
  }

  /** Conversion from floating point to integer drops the fraction. */
  function Trunc(x: real): int {
    if x >= 0.0 then x.Floor else -(-x).Floor
  }

  /** std::to_string of a non-negative number. */
  function Decimal(n: nat): (s: string)
    ensures s != ""
  {
    if n < 10 then [Digit(n)] else Decimal(n / 10) + [Digit(n % 10)]
  }
}
