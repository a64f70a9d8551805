/** The Python exceptions raised by the modelled code. */
module Errors {

  datatype Error =
    | ValueError      // no format has the given string value
    | KeyError        // the exporter table has no entry for the format
    | AttributeError  // `export` before `load_data`: `self.data` was never set
    | TypeError       // a `str` written into a binary stream
}
