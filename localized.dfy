/** User-visible text. Localized strings are kept as their keys with their format
    arguments; locale formatting of times and dates is kept as the instant formatted. */
module Localized {

  datatype Text =
    | Key(key: string, args: seq<Arg>)
    | Literal(s: string)

  datatype Arg =
    | Num(n: int)
    | Str(s: string)
    | Nested(t: Text)
    | TimeOf(at: int)       // DateFormatter, short time style
    | DateTimeOf(at: int)   // DateFormatter, "EEE MMM d, h:mm a" template

  function Plain(key: string): Text { Key(key, []) }
}
