# MCUboot public trailer vocabulary, in Dafny

This project models the executable content of MCUboot's public bootutil
header, `boot/bootutil/include/bootutil/bootutil_public.h`. That is the
vocabulary the image trailer is written in, together with the few rules the
header states:

- **Swap types** (`BOOT_SWAP_TYPE_NONE` … `FAIL` = 1 … 5, `PANIC` = 0xff),
  **magic states** (`GOOD`, `BAD`, `UNSET` stored; `ANY`, `NOTGOOD` control
  only), **flag states** (`SET`, `BAD`, `UNSET` stored; `ANY` control only;
  `SET` is 1 because it is written to flash) and **error codes** (`BOOT_EFLASH`
  … `BOOT_EFLASH_SEC` = 1 … 9). Each is a datatype with a total map to its code
  and a partial map back (module `Vocabulary`).
- **The `swap_info` byte** (module `SwapInfo`). `BOOT_GET_SWAP_TYPE` takes the
  low nibble and `BOOT_GET_IMAGE_NUM` the high nibble. `BOOT_SET_SWAP_INFO`
  packs `(image << 4) | type` after asserting both are below 0xF. The asserts
  become a `requires`. The byte is a `bv8` (`uint8_t`).
- **`struct boot_swap_state`** (module `SwapState`): five raw bytes, and their
  reading in the vocabularies above.
- **The padded magic size** (module `MagicAlign`). `BOOT_MAGIC_SZ` is 16.
  Without `MCUBOOT_BOOT_MAX_ALIGN`, `BOOT_MAX_ALIGN` is 8 and
  `BOOT_MAGIC_ALIGN_SIZE` is 16. With it, the size is
  `ALIGN_UP(16, BOOT_MAX_ALIGN)`, and the swap modes (move, scratch, offset)
  statically require the alignment to lie in [8, 32]. The build settings are a
  `BuildConfig` value.
- **The `boot_set_next` confirm rule** (module `SetNext`): for the active slot,
  `confirm` counts as true whatever is passed.

Two limits that the header sets:

- The high nibble of `swap_info` could hold 15. The assert at
  `bootutil_public.h:127` lets only image indices 0–14 be packed.
- The `_Static_assert` at `bootutil_public.h:82` bounds
  `MCUBOOT_BOOT_MAX_ALIGN` to [8, 32], only in the swap modes, and does not
  require a power of two. `MagicAlign.MagicAlignSizeInSwapModes` gives the
  round-up value for every alignment in that range, e.g. 24 for an alignment
  of 24. A bit-mask `ALIGN_UP` would give 32 there
  (`(16 + 23) & ~23`). The two agree on the power-of-two alignments 8, 16 and
  32.

## Model

| member | source | states |
|---|---|---|
| Vocabulary.SwapTypeCode | boot/bootutil/include/bootutil/bootutil_public.h:53-75 | NONE..FAIL encode as 1..5 and only PANIC as 0xff; decoding the code gives the swap type back |
| Vocabulary.SwapTypeOfCode | boot/bootutil/include/bootutil/bootutil_public.h:53-75 | a byte names a swap type exactly when it is 1..5 or 0xff |
| Vocabulary.SwapTypeOfCodeThenCode | boot/bootutil/include/bootutil/bootutil_public.h:53-75 | a recognised swap-type byte re-encodes to itself |
| Vocabulary.SwapTypeCodeInjective | boot/bootutil/include/bootutil/bootutil_public.h:53-75 | the six swap-type codes are pairwise distinct |
| Vocabulary.PackableSwapTypes | boot/bootutil/include/bootutil/bootutil_public.h:126-128 | a swap type passes the `type < 0xF` assert exactly when it is not PANIC |
| Vocabulary.MagicCode | boot/bootutil/include/bootutil/bootutil_public.h:93-97 | magic states encode into 1..5 and decoding gives the state back |
| Vocabulary.MagicOfCode | boot/bootutil/include/bootutil/bootutil_public.h:93-97 | a byte names a magic state exactly when it is 1..5 |
| Vocabulary.MagicOfCodeThenCode | boot/bootutil/include/bootutil/bootutil_public.h:93-97 | a recognised magic byte re-encodes to itself |
| Vocabulary.Magic.IsStored | boot/bootutil/include/bootutil/bootutil_public.h:93-97 | the states that describe a sector are exactly those coded 1..3; ANY and NOTGOOD are control only |
| Vocabulary.MagicCodeInjective | boot/bootutil/include/bootutil/bootutil_public.h:93-97 | the five magic codes are pairwise distinct |
| Vocabulary.FlagCode | boot/bootutil/include/bootutil/bootutil_public.h:99-105 | flag states encode into 1..4; SET is exactly code 1; decoding gives the state back |
| Vocabulary.FlagOfCode | boot/bootutil/include/bootutil/bootutil_public.h:99-105 | a byte names a flag state exactly when it is 1..4 |
| Vocabulary.FlagOfCodeThenCode | boot/bootutil/include/bootutil/bootutil_public.h:99-105 | a recognised flag byte re-encodes to itself |
| Vocabulary.Flag.IsStored | boot/bootutil/include/bootutil/bootutil_public.h:102-105 | the flag states that describe a sector are exactly those coded 1..3; ANY is control only |
| Vocabulary.FlagCodeInjective | boot/bootutil/include/bootutil/bootutil_public.h:99-105 | the four flag codes are pairwise distinct |
| Vocabulary.ErrorCode | boot/bootutil/include/bootutil/bootutil_public.h:107-115 | error kinds encode into 1..9 and decoding gives the kind back |
| Vocabulary.ErrorOfCode | boot/bootutil/include/bootutil/bootutil_public.h:107-115 | an integer names an error kind exactly when it is 1..9 |
| Vocabulary.ErrorOfCodeThenCode | boot/bootutil/include/bootutil/bootutil_public.h:107-115 | a recognised error code re-encodes to itself, so the error codec is a bijection onto 1..9 |
| Vocabulary.ErrorCodeInjective | boot/bootutil/include/bootutil/bootutil_public.h:107-115 | the nine error codes are pairwise distinct |
| SwapInfo.GetSwapType | boot/bootutil/include/bootutil/bootutil_public.h:122 | the swap type read from any byte is below 16 and is the byte modulo 16 |
| SwapInfo.GetImageNum | boot/bootutil/include/bootutil/bootutil_public.h:123 | the image number read from any byte is below 16 and is the byte divided by 16 |
| SwapInfo.SetSwapInfo | boot/bootutil/include/bootutil/bootutil_public.h:125-131 | for image and type below 0xF, unpacking the packed byte returns both; the byte is image * 16 + type and at most 0xEE |
| SwapInfo.UnpackThenPack | boot/bootutil/include/bootutil/bootutil_public.h:122-131 | a byte with both nibbles below 0xF is repacked from its unpacked parts unchanged |
| SwapInfo.SetSwapInfoInjective | boot/bootutil/include/bootutil/bootutil_public.h:125-131 | two packings are equal exactly when their images and types are |
| SwapInfo.SetSwapInfoIsPacked | boot/bootutil/include/bootutil/bootutil_public.h:122-131 | every packed byte has both nibbles below 0xF, so packing is a bijection onto such bytes |
| SwapInfo.SwapTypeSurvivesPacking | boot/bootutil/include/bootutil/bootutil_public.h:53-131 | a non-PANIC swap type packed with an image index unpacks to the same swap type and index |
| SwapState.EncodeState | boot/bootutil/include/bootutil/bootutil_public.h:143-149 | a snapshot built from vocabulary values holds a valid code in each field and decodes back to those values |
| SwapState.DecodeState | boot/bootutil/include/bootutil/bootutil_public.h:143-149 | a raw snapshot decodes exactly when each coded field holds a code of its vocabulary; the image number is kept |
| SwapState.DecodeThenEncode | boot/bootutil/include/bootutil/bootutil_public.h:143-149 | a snapshot in vocabulary re-encodes to the same five bytes |
| MagicAlign.StaticAssertHolds | boot/bootutil/include/bootutil/bootutil_public.h:79-84 | the static assertion passes exactly when, in the swap modes, BOOT_MAX_ALIGN lies in [8, 32]; it constrains only a configured alignment |
| MagicAlign.MaxAlign | boot/bootutil/include/bootutil/bootutil_public.h:86-89 | BOOT_MAX_ALIGN is the configured value, or 8 when none is configured; it is positive whenever the configured one is |
| MagicAlign.UnitsAreMultiple | boot/bootutil/include/bootutil/bootutil_public.h:87 | any whole number of alignment units is a multiple in the sense ALIGN_UP rounds to |
| MagicAlign.Units | boot/bootutil/include/bootutil/bootutil_public.h:87 | every such multiple is a whole number of alignment units, so the notion of multiple is the usual one |
| MagicAlign.AlignUp | boot/bootutil/include/bootutil/bootutil_public.h:87 | ALIGN_UP gives a multiple of the alignment that is at least the input and less than one unit above it |
| MagicAlign.AlignUpIsLeast | boot/bootutil/include/bootutil/bootutil_public.h:87 | ALIGN_UP gives the least such multiple |
| MagicAlign.MagicAlignSize | boot/bootutil/include/bootutil/bootutil_public.h:77-91 | the padded magic is a multiple of BOOT_MAX_ALIGN in [16, 16 + BOOT_MAX_ALIGN); without a configured alignment it is 16 and BOOT_MAX_ALIGN is 8 |
| MagicAlign.MagicAlignSizeIsLeast | boot/bootutil/include/bootutil/bootutil_public.h:85-91 | no smaller multiple of BOOT_MAX_ALIGN holds the 16-byte magic |
| MagicAlign.SwapModeAlignmentPositive | boot/bootutil/include/bootutil/bootutil_public.h:79-86 | in the swap modes the static assertion puts BOOT_MAX_ALIGN in [8, 32] |
| MagicAlign.MagicAlignSizeInSwapModes | boot/bootutil/include/bootutil/bootutil_public.h:79-91 | in the swap modes, with the alignment in [8, 32], the padded magic is twice the alignment below 16 and the alignment itself from 16 up |
| SetNext.EffectiveConfirm | boot/bootutil/include/bootutil/bootutil_public.h:268-293 | an active slot is always confirmed; an inactive one is confirmed exactly when asked |
| SetNext.ConfirmIgnoredWhenActive | boot/bootutil/include/bootutil/bootutil_public.h:272-275 | for the active slot the passed confirm value makes no difference |
| SetNext.UnconfirmedOnlyWhenInactive | boot/bootutil/include/bootutil/bootutil_public.h:272-275 | a request is left unconfirmed only for an inactive slot with confirm false |

## Left out

- The bodies of `boot_swap_type_multi`, `boot_swap_type`, `boot_set_pending_multi`, `boot_set_pending`, `boot_set_confirmed_multi`, `boot_set_confirmed`, `boot_swap_info_off`, `boot_read_image_ok`, `boot_read_swap_state_by_id`, `boot_read_swap_state`, `boot_set_next` and `boot_image_load_header`: the header only declares them, and their definitions are not part of this model. For `boot_set_next` only the documented confirm rule is modelled.
- The RAM-load operations (`boot_load_image_from_flash_to_sram`, `boot_remove_image_from_sram`, `boot_remove_image_from_flash`): declared only, and they work through the memory subsystem and flash driver.
- Flash-area access (`struct flash_area`, the flash map backend): a foreign driver interface.
- The choice of assert header and the C++ linkage guards: build plumbing with no behaviour.
- `BOOT_HOOK_REGULAR`: a constant with no behaviour stated in the header.
- MagicAlign.AlignUp: `ALIGN_UP` is defined in `bootutil/bootutil_macros.h`, which is not part of this model. It is modelled as rounding up to a multiple of a positive alignment. If the macro is a bit-mask form, it agrees with this only for power-of-two alignments.
- SwapInfo.SetSwapInfo: the macro's arguments are taken as unsigned bytes. A negative `int` argument, which the C asserts would let through, is not modelled.
