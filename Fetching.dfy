/** The error texts the pages build when a provider call does not deliver usable data. */
module Fetching {
  import opened Text

  /** The text for a response that is not ok: "Error: " and the decimal status code. */
  function StatusMessage(status: nat): (message: string)
    ensures |message| > 7 && message[..7] == "Error: "
    ensures forall i :: 7 <= i < |message| ==> '0' <= message[i] <= '9'
    ensures DecimalValue(message[7..]) == status
  {
    var digits := NatToString(status);
    NatToStringValue(status);
    assert ("Error: " + digits)[7..] == digits;
    "Error: " + digits
  }

  /** The text for a body that lacks the expected fields. */
  const FormatMessage := "Invalid data format"
}
