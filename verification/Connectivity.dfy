/** The connectivity states of src/lib/context.py. */
module Connectivity {
  datatype DynatraceConnectivity = Ok | ExpiredToken | WrongToken | WrongURL | InvalidInput | TooManyRequests | Other
}
