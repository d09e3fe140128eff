/**
  The encoding vocabularies of the image trailer: swap types, magic states,
  flag states and error codes. Each vocabulary is a datatype with a total
  map to its byte code and a partial map back from bytes.
 */
module Vocabulary {

  // Not opened: SwapType keeps the header's name None, which would clash with Wrappers.None.
  import Wrappers

  /** The BOOT_SWAP_TYPE_* actions the bootloader can take on an image pair. */
  datatype SwapType =
    | None    // boot the primary slot as it is
    | Test    // swap to the secondary slot; revert on next boot unless confirmed
    | Perm    // swap to the secondary slot for good
    | Revert  // swap back; a confirm turns this into None
    | Fail    // the image to be run is not valid
    | Panic   // unrecoverable error while swapping

  /** Byte code of a swap type: None..Fail are 1..5 and Panic is 0xff. */
  function SwapTypeCode(t: SwapType): (c: bv8)
    ensures t == Panic <==> c == 0xFF
    ensures t != Panic ==> 1 <= c <= 5
    ensures SwapTypeOfCode(c) == Wrappers.Some(t)
  {
    match t
    case None => 1
    case Test => 2
    case Perm => 3
    case Revert => 4
    case Fail => 5
    case Panic => 0xFF
  }

  /** The swap type a byte denotes, if any. */
  function SwapTypeOfCode(c: bv8): (r: Wrappers.Option<SwapType>)
    ensures r.Some? <==> (1 <= c <= 5 || c == 0xFF)
  {
    if c == 1 then Wrappers.Some(None)
    else if c == 2 then Wrappers.Some(Test)
    else if c == 3 then Wrappers.Some(Perm)
    else if c == 4 then Wrappers.Some(Revert)
    else if c == 5 then Wrappers.Some(Fail)
    else if c == 0xFF then Wrappers.Some(Panic)
    else Wrappers.None
  }

  /** Decoding a recognised swap-type byte and encoding it again gives the byte back. */
  lemma SwapTypeOfCodeThenCode(c: bv8)
    requires SwapTypeOfCode(c).Some?
    ensures SwapTypeCode(SwapTypeOfCode(c).value) == c
  {
  }

  /** Distinct swap types have distinct codes. */
  lemma SwapTypeCodeInjective(a: SwapType, b: SwapType)
    ensures SwapTypeCode(a) == SwapTypeCode(b) ==> a == b
  {
  }

  /**
    A swap type fits the four-bit type field of swap_info (code below 0xF)
    exactly when it is not Panic.
   */
  lemma PackableSwapTypes(t: SwapType)
    ensures SwapTypeCode(t) < 0xF <==> t != Panic
  {
  }

  /** BOOT_MAGIC_* states of the trailer magic. */
  datatype Magic =
    | Good
    | Bad
    | Unset
    | Any      // control only: never describes a sector
    | NotGood  // control only: never describes a sector
  {
    /** Good, Bad and Unset describe what a sector holds; Any and NotGood are only compared against. */
    predicate IsStored(): (stored: bool)
      ensures stored <==> MagicCode(this) <= 3
    {
      Good? || Bad? || Unset?
    }
  }

  /** Byte code of a magic state: Good..NotGood are 1..5. */
  function MagicCode(m: Magic): (c: bv8)
    ensures 1 <= c <= 5
    ensures MagicOfCode(c) == Wrappers.Some(m)
  {
    match m
    case Good => 1
    case Bad => 2
    case Unset => 3
    case Any => 4
    case NotGood => 5
  }

  /** The magic state a byte denotes, if any. */
  function MagicOfCode(c: bv8): (r: Wrappers.Option<Magic>)
    ensures r.Some? <==> 1 <= c <= 5
  {
    if c == 1 then Wrappers.Some(Good)
    else if c == 2 then Wrappers.Some(Magic.Bad)
    else if c == 3 then Wrappers.Some(Magic.Unset)
    else if c == 4 then Wrappers.Some(Magic.Any)
    else if c == 5 then Wrappers.Some(NotGood)
    else Wrappers.None
  }

  /** Decoding a recognised magic byte and encoding it again gives the byte back. */
  lemma MagicOfCodeThenCode(c: bv8)
    requires MagicOfCode(c).Some?
    ensures MagicCode(MagicOfCode(c).value) == c
  {
  }

  /** Distinct magic states have distinct codes. */
  lemma MagicCodeInjective(a: Magic, b: Magic)
    ensures MagicCode(a) == MagicCode(b) ==> a == b
  {
  }

  /** BOOT_FLAG_* states of the copy_done and image_ok trailer bytes. */
  datatype Flag =
    | Set
    | Bad
    | Unset
    | Any  // control only: never describes a sector
  {
    /** Set, Bad and Unset describe what a sector holds; Any is only compared against. */
    predicate IsStored(): (stored: bool)
      ensures stored <==> FlagCode(this) <= 3
    {
      Set? || Bad? || Unset?
    }
  }

  /** Byte code of a flag state: Set..Any are 1..4; Set is 1 because that byte is written to flash. */
  function FlagCode(f: Flag): (c: bv8)
    ensures 1 <= c <= 4
    ensures f == Set <==> c == 1
    ensures FlagOfCode(c) == Wrappers.Some(f)
  {
    match f
    case Set => 1
    case Bad => 2
    case Unset => 3
    case Any => 4
  }

  /** The flag state a byte denotes, if any. */
  function FlagOfCode(c: bv8): (r: Wrappers.Option<Flag>)
    ensures r.Some? <==> 1 <= c <= 4
  {
    if c == 1 then Wrappers.Some(Set)
    else if c == 2 then Wrappers.Some(Flag.Bad)
    else if c == 3 then Wrappers.Some(Flag.Unset)
    else if c == 4 then Wrappers.Some(Flag.Any)
    else Wrappers.None
  }

  /** Decoding a recognised flag byte and encoding it again gives the byte back. */
  lemma FlagOfCodeThenCode(c: bv8)
    requires FlagOfCode(c).Some?
    ensures FlagCode(FlagOfCode(c).value) == c
  {
  }

  /** Distinct flag states have distinct codes. */
  lemma FlagCodeInjective(a: Flag, b: Flag)
    ensures FlagCode(a) == FlagCode(b) ==> a == b
  {
  }

  /** BOOT_E* error kinds returned by the public API. */
  datatype BootError =
    | EFlash
    | EFile
    | EBadImage
    | EBadVect
    | EBadStatus
    | ENoMem
    | EBadArgs
    | EBadVersion
    | EFlashSec

  /** Integer code of an error kind: EFlash..EFlashSec are 1..9. */
  function ErrorCode(e: BootError): (c: int)
    ensures 1 <= c <= 9
    ensures ErrorOfCode(c) == Wrappers.Some(e)
  {
    match e
    case EFlash => 1
    case EFile => 2
    case EBadImage => 3
    case EBadVect => 4
    case EBadStatus => 5
    case ENoMem => 6
    case EBadArgs => 7
    case EBadVersion => 8
    case EFlashSec => 9
  }

  /** The error kind an integer code denotes, if any. */
  function ErrorOfCode(c: int): (r: Wrappers.Option<BootError>)
    ensures r.Some? <==> 1 <= c <= 9
  {
    match c
    case 1 => Wrappers.Some(EFlash)
    case 2 => Wrappers.Some(EFile)
    case 3 => Wrappers.Some(EBadImage)
    case 4 => Wrappers.Some(EBadVect)
    case 5 => Wrappers.Some(EBadStatus)
    case 6 => Wrappers.Some(ENoMem)
    case 7 => Wrappers.Some(EBadArgs)
    case 8 => Wrappers.Some(EBadVersion)
    case 9 => Wrappers.Some(EFlashSec)
    case _ => Wrappers.None
  }

  /** Decoding a recognised error code and encoding it again gives the code back. */
  lemma ErrorOfCodeThenCode(c: int)
    requires ErrorOfCode(c).Some?
    ensures ErrorCode(ErrorOfCode(c).value) == c
  {
  }

  /** Distinct error kinds have distinct codes. */
  lemma ErrorCodeInjective(a: BootError, b: BootError)
    ensures ErrorCode(a) == ErrorCode(b) ==> a == b
  {
  }
}
