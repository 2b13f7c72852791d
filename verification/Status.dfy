/** Error codes and the class of failure each belongs to. */
module Status {
  datatype Err =
    | Ok | OutOfRange | ArenaExhausted | Overflow | NotFound | WouldBlock | InvalidArgument
    | UnknownTemplate | ShortPayload
    | InvalidTransition | AlreadyApplied | QtyMismatch | AmountMismatch | ShortSaleNotAllowed
    | InstrumentNotDescribed | OutsideSettlementWindow | StateCorrupt
    | WalFull | IoError | BadCrc | BadMagic | BadBlockLength

  /** The stable numbers; the range carries the class. */
  function Code(e: Err): nat {
    match e
    case Ok => 0
    case OutOfRange => 1
    case ArenaExhausted => 2
    case Overflow => 3
    case NotFound => 4
    case WouldBlock => 5
    case InvalidArgument => 6
    case UnknownTemplate => 100
    case ShortPayload => 101
    case BadBlockLength => 102
    case InvalidTransition => 200
    case AlreadyApplied => 201
    case QtyMismatch => 203
    case AmountMismatch => 205
    case ShortSaleNotAllowed => 206
    case InstrumentNotDescribed => 207
    case OutsideSettlementWindow => 208
    case StateCorrupt => 253
    case WalFull => 300
    case IoError => 351
    case BadCrc => 352
    case BadMagic => 353
  }

  predicate IsFatal(e: Err) {
    250 <= Code(e) < 300 || 350 <= Code(e) < 400 || e == ArenaExhausted
  }
}
