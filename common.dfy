/** Small value types shared by the three components. */
module Common {

  datatype Option<+T> = None | Some(value: T)

  /** What an HTTP call delivers to its subscriber: the decoded body, or an error
      whose detail text may be empty when the server sent none. */
  datatype Response<+T> = Received(data: T) | Failed(detail: string)

  /** A timer id as handed out by the host's setInterval; ids are positive, so a
      stored handle always tests truthy. */
  type Handle = h: nat | h > 0 witness 1

  /** The text an alert shows for a failed call: the server's detail, or a fallback. */
  function Reason(detail: string): (r: string)
    ensures r != []
    ensures detail != [] ==> r == detail
  {
    if detail == [] then "Unknown error" else detail
  }
}
