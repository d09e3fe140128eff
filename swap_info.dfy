/**
  The swap_info byte of the image trailer: the image-pair index in the high
  nibble and the swap-type code in the low nibble.
 */
module SwapInfo {

  // Not opened: Vocabulary.SwapType has a constructor named None.
  import Wrappers
  import opened Vocabulary

  /** BOOT_GET_SWAP_TYPE: the low nibble of swap_info. */
  function GetSwapType(swapInfo: bv8): (t: bv8)
    ensures t < 0x10
    ensures t as int == swapInfo as int % 16
  {
    swapInfo & 0x0F
  }

  /** BOOT_GET_IMAGE_NUM: the high nibble of swap_info. */
  function GetImageNum(swapInfo: bv8): (n: bv8)
    ensures n < 0x10
    ensures n as int == swapInfo as int / 16
  {
    swapInfo >> 4
  }

  /**
    BOOT_SET_SWAP_INFO: pack an image-pair index and a swap-type code.
    Both are asserted below 0xF, so the shifted index never leaves the byte
    and the two nibbles do not overlap.
   */
  function SetSwapInfo(image: bv8, swapType: bv8): (r: bv8)
    requires image < 0xF && swapType < 0xF
    ensures GetImageNum(r) == image && GetSwapType(r) == swapType
    ensures r as int == image as int * 16 + swapType as int
    ensures r <= 0xEE
  {
    (image << 4) | swapType
  }

  /** A byte is what SetSwapInfo can produce when neither nibble is 0xF. */
  predicate IsPacked(swapInfo: bv8) {
    GetImageNum(swapInfo) < 0xF && GetSwapType(swapInfo) < 0xF
  }

  /** Unpacking a packed byte and packing the parts again gives the byte back. */
  lemma UnpackThenPack(swapInfo: bv8)
    requires IsPacked(swapInfo)
    ensures SetSwapInfo(GetImageNum(swapInfo), GetSwapType(swapInfo)) == swapInfo
  {
  }

  /** Packing is injective on its domain. */
  lemma SetSwapInfoInjective(image1: bv8, type1: bv8, image2: bv8, type2: bv8)
    requires image1 < 0xF && type1 < 0xF && image2 < 0xF && type2 < 0xF
    ensures SetSwapInfo(image1, type1) == SetSwapInfo(image2, type2) <==> image1 == image2 && type1 == type2
  {
  }

  /** Every byte SetSwapInfo produces is packed, so the two lemmas above describe a bijection. */
  lemma SetSwapInfoIsPacked(image: bv8, swapType: bv8)
    requires image < 0xF && swapType < 0xF
    ensures IsPacked(SetSwapInfo(image, swapType))
  {
  }

  /**
    A swap type other than Panic survives packing: the low nibble of the
    packed byte decodes to the same swap type and the high nibble to the index.
   */
  lemma SwapTypeSurvivesPacking(image: bv8, t: SwapType)
    requires image < 0xF && t != Panic
    ensures SwapTypeCode(t) < 0xF
    ensures SwapTypeOfCode(GetSwapType(SetSwapInfo(image, SwapTypeCode(t)))) == Wrappers.Some(t)
    ensures GetImageNum(SetSwapInfo(image, SwapTypeCode(t))) == image
  {
  }
}
