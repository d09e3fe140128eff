/**
  struct boot_swap_state: the five bytes a trailer read reports, and their
  reading in the trailer vocabularies.
 */
module SwapState {

  // Not opened: Vocabulary.SwapType has a constructor named None.
  import Wrappers
  import opened Vocabulary

  /** The raw snapshot: each field is one uint8_t. */
  datatype BootSwapState = BootSwapState(
    magic: bv8,      // one of the BOOT_MAGIC_* codes
    swapType: bv8,   // one of the BOOT_SWAP_TYPE_* codes
    copyDone: bv8,   // one of the BOOT_FLAG_* codes
    imageOk: bv8,    // one of the BOOT_FLAG_* codes
    imageNum: bv8)   // the image pair the status belongs to

  /** The same snapshot with each coded field read in its vocabulary. */
  datatype SwapStateView = SwapStateView(
    magic: Magic,
    swapType: SwapType,
    copyDone: Flag,
    imageOk: Flag,
    imageNum: bv8)

  /** Every coded field holds a code of its vocabulary, as the struct's field comments require. */
  predicate InVocabulary(s: BootSwapState) {
    && MagicOfCode(s.magic).Some?
    && SwapTypeOfCode(s.swapType).Some?
    && FlagOfCode(s.copyDone).Some?
    && FlagOfCode(s.imageOk).Some?
  }

  /** Fill the raw snapshot from a view. */
  function EncodeState(v: SwapStateView): (s: BootSwapState)
    ensures InVocabulary(s)
    ensures s.imageNum == v.imageNum
    ensures DecodeState(s) == Wrappers.Some(v)
  {
    BootSwapState(MagicCode(v.magic), SwapTypeCode(v.swapType),
                  FlagCode(v.copyDone), FlagCode(v.imageOk), v.imageNum)
  }

  /** Read a raw snapshot in the vocabularies; None when some field holds no known code. */
  function DecodeState(s: BootSwapState): (r: Wrappers.Option<SwapStateView>)
    ensures r.Some? <==> InVocabulary(s)
    ensures r.Some? ==> r.value.imageNum == s.imageNum
  {
    if InVocabulary(s) then
      Wrappers.Some(SwapStateView(MagicOfCode(s.magic).value, SwapTypeOfCode(s.swapType).value,
                                  FlagOfCode(s.copyDone).value, FlagOfCode(s.imageOk).value, s.imageNum))
    else
      Wrappers.None
  }

  /** Decoding a snapshot whose fields are all in vocabulary and encoding it again gives it back. */
  lemma DecodeThenEncode(s: BootSwapState)
    requires InVocabulary(s)
    ensures EncodeState(DecodeState(s).value) == s
  {
  }
}
