/** Values shared by every part of the dispatcher: optional values, the failures
    the dispatcher can raise, and results that carry one of them. */
module Common {

  datatype Option<+T> = None | Some(value: T)

  /** The failures of one invocation. Each names the Python exception it stands for. */
  datatype Error =
    | RequiredMissing(names: seq<string>)  // argparse usage error: the required flags not given
    | MalformedToken(token: string)        // IndexError: a leftover token without '='
    | MissingKey(key: string)              // KeyError on the parsed argument map or the JSON body
    | LaunchFailed(reason: string)         // OSError from starting the plugin process
    | DecodeFailed(reason: string)         // JSONDecodeError on a completion line

  datatype Result<+T> = Ok(value: T) | Err(error: Error)

  /** Regrouping a concatenation. */
  lemma ConcatAssoc<T>(a: seq<T>, b: seq<T>, c: seq<T>)
    ensures a + b + c == a + (b + c)
  {
  }

  /** What `str(e)` gives for a failure; a KeyError shows the quoted key. */
  function ErrorText(e: Error): string
  {
    match e
    case RequiredMissing(_) => "the following arguments are required"
    case MalformedToken(_) => "list index out of range"
    case MissingKey(k) => "'" + k + "'"
    case LaunchFailed(r) => r
    case DecodeFailed(r) => r
  }
}
