/**
  The five lifecycle states of an escrow order, as the contract reports them
  (an integer code) and as the client shows them (a label string).
  Codes follow the contract's enum order: Created=0, Shipped=1, Delivered=2,
  Completed=3, Cancelled=4.
 */
module OrderStatus {
  import opened Wrappers

  datatype Status = Created | Shipped | Delivered | Completed | Cancelled

  /** The label lookup table of `getOrderStatusText`, indexed by status code. */
  const StatusNames: seq<string> := ["Created", "Shipped", "Delivered", "Completed", "Cancelled"]

  /** The label shown for a code that names no status. */
  const UnknownLabel: string := "Unknown"

  /** The contract's integer code of a status (its position in the enum). */
  function Code(s: Status): (c: nat)
    ensures c < |StatusNames|
  {
    match s
    case Created => 0
    case Shipped => 1
    case Delivered => 2
    case Completed => 3
    case Cancelled => 4
  }

  /** The status a code stands for, if any. */
  function FromCode(code: int): (r: Option<Status>)
    ensures r.Some? <==> 0 <= code < |StatusNames|
    ensures r.Some? ==> Code(r.value) == code
  {
    if code == 0 then Some(Created)
    else if code == 1 then Some(Shipped)
    else if code == 2 then Some(Delivered)
    else if code == 3 then Some(Completed)
    else if code == 4 then Some(Cancelled)
    else None
  }

  /** The label the client shows for a status. */
  function Name(s: Status): string
  {
    StatusNames[Code(s)]
  }

  /**
    `getOrderStatusText`: an array lookup by code, falling back to 'Unknown'
    when the index is outside the array (every entry is a non-empty string,
    so the `||` fallback fires only then).
   */
  function StatusText(code: int): (text: string)
    ensures text == UnknownLabel <==> FromCode(code).None?
    ensures FromCode(code).Some? ==> text == Name(FromCode(code).value)
  {
    if 0 <= code < |StatusNames| then StatusNames[code] else UnknownLabel
  }

  /** Reads a label back as a status; the labels of the five statuses only. */
  function ParseLabel(text: string): (r: Option<Status>)
    ensures r.Some? ==> Name(r.value) == text
  {
    if text == "Created" then Some(Created)
    else if text == "Shipped" then Some(Shipped)
    else if text == "Delivered" then Some(Delivered)
    else if text == "Completed" then Some(Completed)
    else if text == "Cancelled" then Some(Cancelled)
    else None
  }

  /** Decoding a status's own code gives back the status and its label. */
  lemma DecodeRoundTrip(s: Status)
    ensures FromCode(Code(s)) == Some(s)
    ensures StatusText(Code(s)) == Name(s)
  {
  }

  /** Every label is read back as the status it names; 'Unknown' names none. */
  lemma LabelRoundTrip(s: Status)
    ensures ParseLabel(Name(s)) == Some(s)
    ensures Name(s) != UnknownLabel
    ensures ParseLabel(UnknownLabel) == None
  {
  }

  /** Distinct statuses have distinct labels, so the label identifies the status. */
  lemma NameInjective(s: Status, t: Status)
    ensures Name(s) == Name(t) <==> s == t
  {
    LabelRoundTrip(s);
    LabelRoundTrip(t);
  }

  /**
    Two codes give the same label exactly when they are the same valid code
    or both invalid.
   */
  lemma StatusTextInjective(c: int, d: int)
    ensures StatusText(c) == StatusText(d) <==>
              (c == d && FromCode(c).Some?) || (FromCode(c).None? && FromCode(d).None?)
  {
    if FromCode(c).Some? && FromCode(d).Some? {
      NameInjective(FromCode(c).value, FromCode(d).value);
    } else if FromCode(c).Some? {
      LabelRoundTrip(FromCode(c).value);
    } else if FromCode(d).Some? {
      LabelRoundTrip(FromCode(d).value);
    }
  }
}
