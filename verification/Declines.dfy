/** The canonical decline taxonomy. */
module Declines {
  datatype Family = Soft | Hard | Gray

  datatype Code =
    | InsufficientFunds | IssuerUnavailable | ProcessingError | VelocityLimitExceeded | AuthenticationRequired
    | TryAgainLater
    | LostCard | StolenCard | ClosedAccount | InvalidCard | PickupCard | CardNotSupported | RevocationOfAuthorization
    | DoNotHonor | Fraudulent | ExpiredCard | Unknown

  datatype Network = Visa | Mastercard | Amex | Discover | OtherNetwork

  datatype Recommended = RetryIt | CardUpdateIt | SuppressIt

  function FamilyOf(c: Code): Family {
    match c
    case InsufficientFunds | IssuerUnavailable | ProcessingError | VelocityLimitExceeded
       | AuthenticationRequired | TryAgainLater => Soft
    case LostCard | StolenCard | ClosedAccount | InvalidCard | PickupCard => Hard
    case CardNotSupported | RevocationOfAuthorization => Hard
    case DoNotHonor | Fraudulent | ExpiredCard | Unknown => Gray
  }

  predicate IsRetriable(c: Code) {
    FamilyOf(c) != Hard && c != ExpiredCard && c != Fraudulent
  }

  function Classify(c: Code): Recommended {
    if c == Fraudulent then SuppressIt
    else if c == ExpiredCard || FamilyOf(c) == Hard then CardUpdateIt
    else RetryIt
  }
}
