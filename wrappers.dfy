/** Option and Result values, and the errors the zip code library reports. */
module Wrappers {

  datatype Option<+T> = None | Some(value: T)

  datatype Result<+T, +E> = Ok(value: T) | Err(error: E)

  /** The errors of the library. Each carries the text that was refused, as the
      Go error values do; their message strings are not modelled. */
  datatype Error =
    | NotAZipCode(input: string)   // returned by Parse
    | AtoiSyntax(input: string)    // strconv.Atoi's syntax error, surfaced by New
    | FloatError(input: string)    // any strconv.ParseFloat error (syntax or range), surfaced by New
    | ShortLine(input: string)     // a record shorter than the 22 bytes tokensSub slices: Go
                                   // panics there, and the model makes it New's result
}
