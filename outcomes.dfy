/** Failure-carrying values shared by the gateways.

    Every gateway of the User store has exactly one domain error: the
    addressed id does not exist.  The thrown `Error` becomes the `NotFound`
    case of `Result`, carrying that id; its message text is `NotFoundMessage`. */
module Outcomes {
  import opened Options
  import Decimal

  /** The outcome of a gateway call: a value, or the not-found error for `id`. */
  datatype Result<+T> = Ok(value: T) | NotFound(id: int)

  const MessagePrefix: string := "User with ID "
  const MessageSuffix: string := " not found"

  /** The text of the error every gateway throws for a missing id:
      `User with ID ${id} not found`. */
  function NotFoundMessage(id: int): (msg: string)
    ensures |msg| > |MessagePrefix| + |MessageSuffix|
    ensures msg[..|MessagePrefix|] == MessagePrefix
    ensures msg[|msg| - |MessageSuffix|..] == MessageSuffix
  {
    MessagePrefix + Decimal.IntToDecimal(id) + MessageSuffix
  }

  /** Reads the id back out of a not-found message, if it is one. */
  function ParseNotFoundMessage(msg: string): Option<int>
  {
    if |msg| >= |MessagePrefix| + |MessageSuffix|
       && msg[..|MessagePrefix|] == MessagePrefix
       && msg[|msg| - |MessageSuffix|..] == MessageSuffix
    then
      match Decimal.ParseDecimal(msg[|MessagePrefix|..|msg| - |MessageSuffix|])
      case Some(n) => Some(n)
      case None => None
    else None
  }

  /** The message names the id it was raised for: it can be read back. */
  lemma {:induction false} NotFoundMessageCarriesId(id: int)
    ensures ParseNotFoundMessage(NotFoundMessage(id)) == Some(id)
  {
    var digits := Decimal.IntToDecimal(id);
    var msg := NotFoundMessage(id);
    assert msg[|MessagePrefix|..|msg| - |MessageSuffix|] == digits;
    Decimal.IntRoundTrip(id);
  }

  /** Two different ids never produce the same message. */
  lemma NotFoundMessageInjective(a: int, b: int)
    requires NotFoundMessage(a) == NotFoundMessage(b)
    ensures a == b
  {
    NotFoundMessageCarriesId(a);
    NotFoundMessageCarriesId(b);
  }
}
