/** An optional value, for results that may be absent (a sequence that does not parse, an SFDP
    readout that failed). */
module Option {

  datatype Option<+T> = None | Some(value: T)
}
