/** The device/range check that the report and dashboard views run before any request. */
module Selection {
  import opened Common

  datatype SelectionError = NothingSelected | NoDevice | NoRange

  /** The alert text for each incomplete selection. */
  function Message(e: SelectionError): string
  {
    match e
    case NothingSelected => "Please select a device type and a range."
    case NoDevice => "Please select a device type."
    case NoRange => "Please select a range."
  }

  /** An empty string counts as "not selected". The combined message wins over the
      single ones, and a missing device is reported before a missing range. */
  function Validate(device: string, range: string): (r: Option<SelectionError>)
    ensures r == None <==> device != [] && range != []
    ensures r == Some(NothingSelected) <==> device == [] && range == []
    ensures r == Some(NoDevice) <==> device == [] && range != []
    ensures r == Some(NoRange) <==> device != [] && range == []
  {
    if device == [] && range == [] then Some(NothingSelected)
    else if device == [] then Some(NoDevice)
    else if range == [] then Some(NoRange)
    else None
  }
}
